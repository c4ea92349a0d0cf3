/** Small value types shared by every part of the model. */
module Wrappers {

  /** A value that may be missing (PHP's `null`). */
  datatype Option<+T> = None | Some(value: T)

  /**
   * Where a storage write raises an exception, if anywhere. The writes an
   * operation performs are numbered from 0 in the order the source issues them;
   * `FailsAtWrite(n)` means write n throws (and so has no effect) and the
   * writes before it went through. Write numbers the operation never reaches
   * behave like `NoFault`.
   */
  datatype StorageFault = NoFault | FailsAtWrite(index: nat)

  predicate Throws(fault: StorageFault, write: nat) {
    fault == FailsAtWrite(write)
  }
}

/** Generic helpers on sequences. */
module Collections {

  /** The elements of `s` that satisfy `p`, in their original order (a `where` or `array_filter`). */
  function Filter<T(!new)>(s: seq<T>, p: T -> bool): (r: seq<T>)
    ensures forall x :: x in r <==> x in s && p(x)
    ensures |r| <= |s|
    ensures forall i :: 0 <= i < |r| ==> p(r[i])
  {
    if s == [] then []
    else (if p(s[0]) then [s[0]] else []) + Filter(s[1..], p)
  }

  /** `array_values(array_diff(s, [x]))`: every occurrence of `x` removed, the rest kept in order. */
  function Without<T(==,!new)>(s: seq<T>, x: T): (r: seq<T>)
    ensures forall y :: y in r <==> y in s && y != x
  {
    Filter(s, NotEqualTo(x))
  }

  function NotEqualTo<T(==)>(x: T): T -> bool {
    y => y != x
  }

  /** Removing an element that was just appended to a sequence without it gives the sequence back. */
  lemma WithoutUndoesAppend<T(!new)>(s: seq<T>, x: T)
    requires x !in s
    ensures Without(s + [x], x) == s
  {
    FilterAppend(s, [x], NotEqualTo(x));
    FilterKeepsPassing(s, NotEqualTo(x));
    assert Filter([x], NotEqualTo(x)) == [];
  }

  /** Filtering a concatenation filters each part. */
  lemma {:induction false} FilterAppend<T(!new)>(s: seq<T>, t: seq<T>, p: T -> bool)
    ensures Filter(s + t, p) == Filter(s, p) + Filter(t, p)
  {
    if s == [] {
      assert s + t == t;
    } else {
      assert (s + t)[1..] == s[1..] + t;
      FilterAppend(s[1..], t, p);
    }
  }

  /** A filter that lets through at least what another lets through keeps at least as many elements. */
  lemma {:induction false} FilterMonotone<T(!new)>(s: seq<T>, p: T -> bool, q: T -> bool)
    requires forall x :: x in s && p(x) ==> q(x)
    ensures |Filter(s, p)| <= |Filter(s, q)|
  {
    if s != [] {
      assert forall x :: x in s[1..] ==> x in s;
      FilterMonotone(s[1..], p, q);
    }
  }

  /** Filtering keeps a sequence whose every element passes. */
  lemma {:induction false} FilterKeepsPassing<T(!new)>(s: seq<T>, p: T -> bool)
    requires forall i :: 0 <= i < |s| ==> p(s[i])
    ensures Filter(s, p) == s
  {
    if s != [] {
      FilterKeepsPassing(s[1..], p);
    }
  }
}
