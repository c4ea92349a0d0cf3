/**
 * The few PHP string primitives the core relies on, over Dafny strings
 * (sequences of Unicode scalar values).
 */
module PhpStrings {

  /** The characters PHP's `trim` strips by default: space, tab, LF, CR, NUL and vertical tab. */
  predicate IsTrimmable(c: char) {
    c == ' ' || c == '\t' || c == '\n' || c == '\r' || c == '\0' || c as int == 11
  }

  /** `ltrim`: the longest suffix of `s` that does not start with a trimmable character. */
  function TrimStart(s: string): (r: string)
    ensures |r| <= |s| && r == s[|s| - |r|..]
    ensures r != [] ==> !IsTrimmable(r[0])
  {
    if s != [] && IsTrimmable(s[0]) then TrimStart(s[1..]) else s
  }

  /** `ltrim` drops only trimmable characters. */
  lemma {:induction false} TrimStartDropsOnlyTrimmable(s: string)
    ensures forall i :: 0 <= i < |s| - |TrimStart(s)| ==> IsTrimmable(s[i])
  {
    if s != [] && IsTrimmable(s[0]) {
      TrimStartDropsOnlyTrimmable(s[1..]);
      assert forall i :: 1 <= i < |s| ==> s[i] == s[1..][i - 1];
    }
  }

  /** `rtrim`: the longest prefix of `s` that does not end with a trimmable character. */
  function TrimEnd(s: string): (r: string)
    ensures |r| <= |s| && r == s[..|r|]
    ensures r != [] ==> !IsTrimmable(r[|r| - 1])
  {
    if s != [] && IsTrimmable(s[|s| - 1]) then TrimEnd(s[..|s| - 1]) else s
  }

  /** `rtrim` drops only trimmable characters. */
  lemma {:induction false} TrimEndDropsOnlyTrimmable(s: string)
    ensures forall i :: |TrimEnd(s)| <= i < |s| ==> IsTrimmable(s[i])
  {
    if s != [] && IsTrimmable(s[|s| - 1]) {
      TrimEndDropsOnlyTrimmable(s[..|s| - 1]);
    }
  }

  /** `trim`. */
  function Trim(s: string): string {
    TrimEnd(TrimStart(s))
  }

  /** What `trim` keeps is a contiguous piece of `s` with no trimmable character at either end. */
  lemma TrimIsTrimmedSlice(s: string)
    ensures exists i, j :: 0 <= i <= j <= |s| && Trim(s) == s[i..j]
    ensures Trim(s) != [] ==> !IsTrimmable(Trim(s)[0]) && !IsTrimmable(Trim(s)[|Trim(s)| - 1])
  {
    var t := TrimStart(s);
    var r := TrimEnd(t);
    assert Trim(s) == r;
    var i := |s| - |t|;
    var j := i + |r|;
    assert r == s[i..j] by {
      assert t == s[i..];
      assert r == t[..|r|];
    }
    assert 0 <= i <= j <= |s| && Trim(s) == s[i..j];
    if r != [] {
      assert r[0] == t[0];
    }
  }

  /** `trim` leaves a string unchanged exactly when it has no trimmable character at either end. */
  lemma TrimFixesTrimmed(s: string)
    requires s != [] ==> !IsTrimmable(s[0]) && !IsTrimmable(s[|s| - 1])
    ensures Trim(s) == s
  {
  }

  /** PHP's `empty()` on a string: true for "" and for "0". */
  predicate IsEmpty(s: string) {
    s == "" || s == "0"
  }

  /** `empty(trim(s))` holds exactly when `s` is nothing but trimmable characters, or "0" padded with them. */
  lemma BlankMeansOnlyPadding(s: string)
    ensures IsBlank(s) <==> (forall i :: 0 <= i < |s| ==> IsTrimmable(s[i])) || Trim(s) == "0"
  {
    var t := TrimStart(s);
    TrimStartDropsOnlyTrimmable(s);
    TrimEndDropsOnlyTrimmable(t);
    assert t != [] ==> t[0] == s[|s| - |t|];
  }

  /** PHP truthiness of a string: neither "" nor "0". */
  predicate IsTruthy(s: string) {
    !IsEmpty(s)
  }

  /** `empty(trim(s))`, the test the create form applies to its inputs. */
  predicate IsBlank(s: string) {
    IsEmpty(Trim(s))
  }

  /** `strtoupper` (PHP 8.2+: ASCII letters only, whatever the locale). */
  function UpperChar(c: char): (r: char)
    ensures 'a' <= c <= 'z' ==> r as int == c as int - 32
    ensures !('a' <= c <= 'z') ==> r == c
  {
    if 'a' <= c <= 'z' then (c as int - 32) as char else c
  }

  function Upper(s: string): (r: string)
    ensures |r| == |s|
  {
    if s == [] then [] else [UpperChar(s[0])] + Upper(s[1..])
  }

  /** `strtoupper` maps each character on its own. */
  lemma {:induction false} UpperAt(s: string)
    ensures forall i :: 0 <= i < |s| ==> Upper(s)[i] == UpperChar(s[i])
  {
    if s != [] {
      UpperAt(s[1..]);
      assert forall i :: 1 <= i < |s| ==> Upper(s)[i] == Upper(s[1..])[i - 1];
    }
  }

  /** Upper-casing twice is upper-casing once. */
  lemma UpperIdempotent(s: string)
    ensures Upper(Upper(s)) == Upper(s)
  {
    var u := Upper(s);
    UpperAt(s);
    UpperAt(u);
    assert forall i :: 0 <= i < |u| ==> Upper(u)[i] == u[i];
  }

  /** Number of bytes of the UTF-8 encoding of one character. */
  function Utf8Width(c: char): (w: nat)
    ensures 1 <= w <= 4
    ensures w == 1 <==> c as int < 0x80
  {
    if c as int < 0x80 then 1
    else if c as int < 0x800 then 2
    else if c as int < 0x1_0000 then 3
    else 4
  }

  /** `strlen`: the byte length of the UTF-8 encoding. */
  function Utf8Length(s: string): nat {
    if s == [] then 0 else Utf8Width(s[0]) + Utf8Length(s[1..])
  }

  /** A string is never shorter in bytes than in characters, nor more than four times longer. */
  lemma {:induction false} Utf8LengthBounds(s: string)
    ensures |s| <= Utf8Length(s) <= 4 * |s|
    ensures Utf8Length(s) == |s| <==> forall i :: 0 <= i < |s| ==> s[i] as int < 0x80
  {
    if s != [] {
      Utf8LengthBounds(s[1..]);
      assert forall i :: 1 <= i < |s| ==> s[i] == s[1..][i - 1];
    }
  }

  /** `strtoupper` only swaps ASCII letters, so it keeps the byte length. */
  lemma {:induction false} UpperKeepsUtf8Length(s: string)
    ensures Utf8Length(Upper(s)) == Utf8Length(s)
  {
    if s != [] {
      UpperKeepsUtf8Length(s[1..]);
      assert Upper(s)[1..] == Upper(s[1..]);
    }
  }

  /** `needle` occurs in `hay` as a contiguous piece (what `LIKE '%needle%'` tests). */
  predicate Contains(hay: string, needle: string) {
    exists i | 0 <= i <= |hay| - |needle| :: OccursAt(hay, needle, i)
  }

  predicate OccursAt(hay: string, needle: string, i: int) {
    0 <= i <= |hay| - |needle| && hay[i..i + |needle|] == needle
  }

  /** Wherever a string occurs, each of its prefixes occurs too. */
  lemma ContainsPrefix(hay: string, needle: string, more: string)
    requires Contains(hay, needle + more)
    ensures Contains(hay, needle)
  {
    var i :| 0 <= i <= |hay| - |needle + more| && OccursAt(hay, needle + more, i);
    assert hay[i..i + |needle|] == (needle + more)[..|needle|];
    assert OccursAt(hay, needle, i);
  }

  /** Decimal text of an integer, as PHP writes an `int` when it becomes a string. */
  function DecimalText(n: int): string {
    if n < 0 then "-" + Digits(-n) else Digits(n)
  }

  function Digits(n: nat): string {
    if n < 10 then [DigitChar(n)] else Digits(n / 10) + [DigitChar(n % 10)]
  }

  function DigitChar(d: nat): char
    requires d < 10
  {
    ('0' as int + d) as char
  }
}
