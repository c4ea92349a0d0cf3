/**
 * The currency creation form: the code/symbol fallback, the checks run in
 * order before the insert, the election of the first currency as default,
 * and the push of a new default to the external table.
 */
module CurrencyCreate {
  import opened Wrappers
  import opened PhpStrings
  import opened CurrencyModel
  import opened CurrencySync

  /** The form's public properties at the moment `save()` runs. */
  datatype FormInput = FormInput(
    code: string,
    symbol: string,
    name: string,
    rate: int,                     // units of 10^-8
    isAuto: bool,
    fee: Option<int>,              // units of 10^-4
    countryTaxonomyId: Option<int>)

  /** Why `save()` stopped, in the order it checks. */
  datatype CreateError =
    | CodeOrSymbolMissing          // both blank after the fallback
    | CodeLengthInvalid            // strlen(trim(code)) outside 3..4
    | ValidationFailed             // a declared validation rule failed
    | CodeAlreadyExists            // the duplicate probe found a row

  datatype SaveOutcome = Created | Rejected(reason: CreateError)

  /**
   * The fallback: a blank code takes the symbol, or else a blank symbol
   * takes the code. Values are copied as typed, untrimmed.
   */
  function Fallback(code: string, symbol: string): (r: (string, string))
    ensures !IsBlank(code) ==> r.0 == code
    ensures !IsBlank(symbol) ==> r.1 == symbol
    ensures (r.0 == code || r.0 == symbol) && (r.1 == code || r.1 == symbol)
  {
    if IsBlank(code) && !IsBlank(symbol) then (symbol, symbol)
    else if IsBlank(symbol) && !IsBlank(code) then (code, code)
    else (code, symbol)
  }

  /** The form after the fallback has been applied. */
  function Prepared(f: FormInput): FormInput {
    var (code, symbol) := Fallback(f.code, f.symbol);
    f.(code := code, symbol := symbol)
  }

  /** After the fallback, both fields are blank or neither is; two non-blank fields are left alone. */
  lemma FallbackFillsBlank(code: string, symbol: string)
    ensures var (c, s) := Fallback(code, symbol);
      && (IsBlank(c) <==> IsBlank(code) && IsBlank(symbol))
      && (IsBlank(s) <==> IsBlank(code) && IsBlank(symbol))
      && (!IsBlank(code) && !IsBlank(symbol) ==> c == code && s == symbol)
  {
  }

  /**
   * A validation rule on a string is skipped for a value that trims to
   * nothing (the field is `nullable` and the rule is not implicit).
   */
  predicate SkipsRules(s: string) {
    Trim(s) == []
  }

  /**
   * The declared rules: code 3–4 characters and not stored verbatim,
   * symbol at most 10, name at most 255 characters, rate at least 10^-8,
   * fee absent or not negative, country absent or a known taxonomy id.
   */
  predicate PassesFieldRules(rows: seq<Currency>, f: FormInput, taxonomyIds: set<int>)
    ensures PassesFieldRules(rows, f, taxonomyIds) ==> |Trim(f.symbol)| <= 10 && |Trim(f.name)| <= 255 && f.rate > 0
  {
    && (SkipsRules(f.code) || (3 <= |f.code| <= 4 && !CodeStored(rows, f.code)))
    && (SkipsRules(f.symbol) || |f.symbol| <= 10)
    && (SkipsRules(f.name) || |f.name| <= 255)
    && f.rate >= 1
    && (f.fee.None? || f.fee.value >= 0)
    && (f.countryTaxonomyId.None? || f.countryTaxonomyId.value in taxonomyIds)
  }

  /**
   * The checks of `save()` AS WRITTEN, on the prepared form: the duplicate
   * probe looks for `strtoupper(code)` although the row will hold
   * `strtoupper(trim(code))`.
   */
  function CreateRejection(rows: seq<Currency>, f: FormInput, taxonomyIds: set<int>): (r: Option<CreateError>)
    ensures r == Some(CodeOrSymbolMissing) <==> IsBlank(f.code) && IsBlank(f.symbol)
    ensures r.None? && !IsBlank(f.code) ==> 3 <= Utf8Length(Trim(f.code)) <= 4
    ensures r.None? ==> PassesFieldRules(rows, f, taxonomyIds) && !CodeStored(rows, Upper(f.code))
  {
    if IsBlank(f.code) && IsBlank(f.symbol) then Some(CodeOrSymbolMissing)
    else if !IsBlank(f.code) && !(3 <= Utf8Length(Trim(f.code)) <= 4) then Some(CodeLengthInvalid)
    else if !PassesFieldRules(rows, f, taxonomyIds) then Some(ValidationFailed)
    else if CodeStored(rows, Upper(f.code)) then Some(CodeAlreadyExists)
    else None
  }

  /** The checks with the duplicate probe also looking for the code exactly as it will be stored. */
  function CorrectedCreateRejection(rows: seq<Currency>, f: FormInput, taxonomyIds: set<int>): Option<CreateError> {
    match CreateRejection(rows, f, taxonomyIds)
    case Some(e) => Some(e)
    case None => if CodeStored(rows, Upper(Trim(f.code))) then Some(CodeAlreadyExists) else None
  }

  /**
   * The row `save()` inserts (its key is assigned by the table): it becomes
   * the default, at rate 1, exactly when no default exists yet.
   */
  function NewCurrency(rows: seq<Currency>, f: FormInput): (r: Currency)
    ensures r.isActive
    ensures r.isDefault <==> !HasDefault(rows)
    ensures r.rate == if r.isDefault then RateScale else f.rate
    ensures r.name.None? <==> IsBlank(f.name)
  {
    var isDefault := !HasDefault(rows);
    Currency(
      0,
      Upper(Trim(f.code)),
      Trim(f.symbol),
      if IsBlank(f.name) then None else Some(Trim(f.name)),
      if isDefault then RateScale else f.rate,
      f.isAuto,
      f.fee,
      isDefault,
      f.countryTaxonomyId,
      true)
  }

  /** Codes are pairwise distinct. */
  predicate UniqueCodes(rows: seq<Currency>) {
    forall i, j :: 0 <= i < j < |rows| ==> rows[i].code != rows[j].code
  }

  // ------------------------------------------------------------ properties

  /**
   * A symbol alone shorter than three bytes is refused: the fallback copies
   * it into the code, which then fails the length check.
   */
  lemma ShortSymbolAloneRejected(rows: seq<Currency>, f: FormInput, taxonomyIds: set<int>)
    requires IsBlank(f.code) && !IsBlank(f.symbol) && Utf8Length(Trim(f.symbol)) < 3
    ensures CreateRejection(rows, Prepared(f), taxonomyIds) == Some(CodeLengthInvalid)
  {
  }

  /** In particular a form holding only the symbol "$" creates nothing. */
  lemma DollarAloneRejected(rows: seq<Currency>, f: FormInput, taxonomyIds: set<int>)
    requires f.code == "" && f.symbol == "$"
    ensures CreateRejection(rows, Prepared(f), taxonomyIds) == Some(CodeLengthInvalid)
  {
    DollarIsShort();
    ShortSymbolAloneRejected(rows, f, taxonomyIds);
  }

  lemma DollarIsShort()
    ensures IsBlank("") && !IsBlank("$") && Utf8Length(Trim("$")) == 1
  {
    EmptyIsBlank();
    DollarIsTrimmed();
    DollarIsTruthy();
    DollarIsOneByte();
  }

  lemma EmptyIsBlank()
    ensures IsBlank("")
  {
    TrimFixesTrimmed("");
  }

  lemma DollarIsTrimmed()
    ensures Trim("$") == "$"
  {
    TrimFixesTrimmed("$");
  }

  lemma DollarIsTruthy()
    ensures IsTruthy("$")
  {
    assert "$"[0] != "0"[0];
  }

  lemma DollarIsOneByte()
    ensures Utf8Length("$") == 1
  {
  }

  /**
   * Every accepted form stores a code of three or four bytes, so between one
   * and four characters: it fits the `char(4)` column.
   */
  lemma AcceptedCodeFitsColumn(rows: seq<Currency>, f: FormInput, taxonomyIds: set<int>)
    requires CreateRejection(rows, Prepared(f), taxonomyIds).None?
    ensures var code := NewCurrency(rows, Prepared(f)).code;
      3 <= Utf8Length(code) <= 4 && 1 <= |code| <= 4
  {
    var p := Prepared(f);
    FallbackFillsBlank(f.code, f.symbol);
    assert !IsBlank(p.code);
    UpperKeepsUtf8Length(Trim(p.code));
    Utf8LengthBounds(Upper(Trim(p.code)));
  }

  /**
   * Inserting the new row keeps the default rule; the row is the default
   * exactly when the table was empty.
   */
  lemma NewCurrencyKeepsDefaultRule(rows: seq<Currency>, f: FormInput, id: nat)
    requires DefaultRule(rows)
    ensures DefaultRule(rows + [NewCurrency(rows, f).(id := id)])
    ensures NewCurrency(rows, f).isDefault <==> |rows| == 0
  {
    var row := NewCurrency(rows, f).(id := id);
    assert row.isDefault == (|rows| == 0 || !HasDefault(rows));
    assert row.isDefault ==> row.isActive && row.rate == RateScale;
    DefaultRuleExtends(rows, row);
  }

  /** Appending a row keeps the default rule when the row is the default of an empty table, or not a default at all. */
  lemma DefaultRuleExtends(rows: seq<Currency>, row: Currency)
    requires DefaultRule(rows)
    requires row.isDefault <==> |rows| == 0
    requires row.isDefault ==> row.isActive && row.rate == RateScale
    ensures DefaultRule(rows + [row])
  {
    var after := rows + [row];
    assert forall i :: 0 <= i < |rows| ==> after[i] == rows[i];
    if |rows| > 0 {
      var k :| 0 <= k < |rows| && rows[k].isDefault;
      assert after[k].isDefault;
    } else {
      assert after[0].isDefault;
    }
  }

  /** The first currency created becomes the default, and a push then writes its stored code and symbol. */
  lemma FirstCurrencyIsPushed(f: FormInput, entries: map<string, string>, id: nat)
    ensures var row := NewCurrency([], f).(id := id);
      && row.isDefault && row.rate == RateScale && row.isActive
      && var pushed := PushEffect(false, true, entries, [row], NoFault).state;
      && CodeKey in pushed && pushed[CodeKey] == Upper(Trim(f.code))
      && SymbolKey in pushed && pushed[SymbolKey] == Trim(f.symbol)
  {
    var row := NewCurrency([], f).(id := id);
    assert !HasDefault([]);
    assert row.isDefault && row.code == Upper(Trim(f.code)) && row.symbol == Trim(f.symbol);
    PushOfOnlyRow(entries, row);
    UpperIdempotent(Trim(f.code));
  }

  /**
   * Finding, as written: with "USD" stored, the code " usd" passes every
   * check (the probe looks for " USD") and a second "USD" is inserted.
   */
  lemma DuplicateCodeThroughLeadingSpace(usd: Currency, f: FormInput)
    requires usd.code == "USD"
    requires f == FormInput(" usd", "$", "", RateScale, false, None, None)
    ensures CreateRejection([usd], Prepared(f), {}) == None
    ensures NewCurrency([usd], Prepared(f)).code == usd.code
  {
    PaddedUsdIsFilled(f);
    PaddedUsdPassesRules(usd, f);
    PaddedUsdMissesProbe(usd, f);
    PaddedCodeSlipsThrough([usd], f, {});
  }

  lemma PaddedUsdIsFilled(f: FormInput)
    requires f == FormInput(" usd", "$", "", RateScale, false, None, None)
    ensures !IsBlank(f.code) && !IsBlank(f.symbol) && 3 <= Utf8Length(Trim(f.code)) <= 4
  {
    LeadingSpaceFacts();
    DollarIsShort();
  }

  lemma PaddedUsdPassesRules(usd: Currency, f: FormInput)
    requires usd.code == "USD"
    requires f == FormInput(" usd", "$", "", RateScale, false, None, None)
    ensures PassesFieldRules([usd], f, {})
  {
    LeadingSpaceFacts();
    UpperUsd();
    assert !CodeStored([usd], f.code);
  }

  lemma PaddedUsdMissesProbe(usd: Currency, f: FormInput)
    requires usd.code == "USD"
    requires f == FormInput(" usd", "$", "", RateScale, false, None, None)
    ensures !CodeStored([usd], Upper(f.code)) && CodeStored([usd], Upper(Trim(f.code)))
  {
    TrimSpaceUsd();
    UpperUsd();
    assert [usd][0].code == Upper(Trim(f.code));
  }

  /**
   * A non-blank form that passes the declared rules, whose code is not stored
   * as typed but is stored once trimmed, passes every check as written and
   * yields a row with a code already present.
   */
  lemma PaddedCodeSlipsThrough(rows: seq<Currency>, f: FormInput, taxonomyIds: set<int>)
    requires !IsBlank(f.code) && !IsBlank(f.symbol)
    requires 3 <= Utf8Length(Trim(f.code)) <= 4
    requires PassesFieldRules(rows, f, taxonomyIds)
    requires !CodeStored(rows, Upper(f.code)) && CodeStored(rows, Upper(Trim(f.code)))
    ensures CreateRejection(rows, Prepared(f), taxonomyIds) == None
    ensures CodeStored(rows, NewCurrency(rows, Prepared(f)).code)
  {
    assert Prepared(f) == f;
  }

  lemma LeadingSpaceFacts()
    ensures Trim(" usd") == "usd" && Utf8Length("usd") == 3
    ensures !IsBlank(" usd") && SkipsRules("")
  {
    TrimSpaceUsd();
    TrimFixesTrimmed("");
  }

  lemma TrimSpaceUsd()
    ensures Trim(" usd") == "usd"
  {
    assert TrimStart(" usd") == "usd";
    TrimFixesTrimmed("usd");
  }

  lemma UpperUsd()
    ensures Upper("usd") == "USD" && Upper(" usd") != "USD" && " usd" != "USD"
  {
    UpperAt(" usd");
    UpperAt("usd");
    assert Upper(" usd")[0] == ' ';
    var u := Upper("usd");
    assert u[0] == 'U' && u[1] == 'S' && u[2] == 'D';
  }

  /** Corrected: when the corrected checks accept, the new row keeps codes pairwise distinct. */
  lemma CorrectedCreateKeepsCodesUnique(rows: seq<Currency>, f: FormInput, taxonomyIds: set<int>, id: nat)
    requires UniqueCodes(rows)
    requires CorrectedCreateRejection(rows, f, taxonomyIds).None?
    ensures UniqueCodes(rows + [NewCurrency(rows, f).(id := id)])
  {
    FreshCodeKeepsCodesUnique(rows, NewCurrency(rows, f).(id := id));
  }

  /** Appending a row whose code is not stored keeps codes pairwise distinct. */
  lemma FreshCodeKeepsCodesUnique(rows: seq<Currency>, row: Currency)
    requires UniqueCodes(rows) && !CodeStored(rows, row.code)
    ensures UniqueCodes(rows + [row])
  {
    var after := rows + [row];
    forall i, j | 0 <= i < j < |after| ensures after[i].code != after[j].code {
      if j == |rows| {
        assert after[i] == rows[i];
      } else {
        assert after[i] == rows[i] && after[j] == rows[j];
      }
    }
  }

  /** What the corrected checks accept is a code no row holds yet. */
  lemma AcceptedCodeIsFresh(rows: seq<Currency>, f: FormInput, taxonomyIds: set<int>)
    requires CorrectedCreateRejection(rows, f, taxonomyIds).None?
    ensures !CodeStored(rows, Upper(Trim(f.code)))
  {
  }

  /** The corrected checks refuse everything the written ones refuse, and agree with them when trimming changes nothing. */
  lemma CorrectedRejectsMore(rows: seq<Currency>, f: FormInput, taxonomyIds: set<int>)
    ensures CreateRejection(rows, f, taxonomyIds).Some? ==>
      CorrectedCreateRejection(rows, f, taxonomyIds) == CreateRejection(rows, f, taxonomyIds)
    ensures Trim(f.code) == f.code ==>
      CorrectedCreateRejection(rows, f, taxonomyIds) == CreateRejection(rows, f, taxonomyIds)
  {
  }

  /**
   * The checks of `save()` in the order it runs them, on the prepared form,
   * with the corrected duplicate probe.
   */
  method CorrectedRunChecks(rows: seq<Currency>, f: FormInput, taxonomyIds: set<int>) returns (err: Option<CreateError>)
    ensures err == CorrectedCreateRejection(rows, f, taxonomyIds)
  {
    if IsBlank(f.code) && IsBlank(f.symbol) {
      return Some(CodeOrSymbolMissing);
    }
    if !IsBlank(f.code) {
      var codeLength := Utf8Length(Trim(f.code));
      if codeLength < 3 || codeLength > 4 {
        return Some(CodeLengthInvalid);
      }
    }
    if !PassesFieldRules(rows, f, taxonomyIds) {
      return Some(ValidationFailed);
    }
    if CodeStored(rows, Upper(f.code)) || CodeStored(rows, Upper(Trim(f.code))) {
      return Some(CodeAlreadyExists);
    }
    return None;
  }

  /**
   * The insert and the push of `save()`, once the checks have passed: `row`
   * goes in under the next key and, if it is the new default, the external
   * table is synchronised from it.
   */
  method InsertAndPush(table: CurrencyTable, sync: CurrencySyncService, ext: ExternalSettings, row: Currency, pushFault: StorageFault)
    requires table.Valid()
    requires row.isDefault <==> !HasDefault(table.rows)
    modifies table, sync, ext
    ensures table.rows == old(table.rows) + [row.(id := old(table.nextId))] && table.nextId == old(table.nextId) + 1
    ensures table.ratesLog == old(table.ratesLog) && table.conversionLog == old(table.conversionLog)
    ensures table.Valid() && sync.syncing == old(sync.syncing) && ext.hasTable == old(ext.hasTable)
    ensures row.isDefault ==>
      ext.entries == PushEffect(old(sync.syncing), old(ext.hasTable), old(ext.entries), table.rows, pushFault).state
    ensures !row.isDefault ==> ext.entries == old(ext.entries)
    ensures old(DefaultRule(table.rows)) && (row.isDefault ==> row.isActive && row.rate == RateScale) ==> DefaultRule(table.rows)
    ensures old(UniqueCodes(table.rows)) && !CodeStored(old(table.rows), row.code) ==> UniqueCodes(table.rows)
  {
    if DefaultRule(table.rows) && (row.isDefault ==> row.isActive && row.rate == RateScale) {
      DefaultRuleExtends(table.rows, row.(id := table.nextId));
    }
    if UniqueCodes(table.rows) && !CodeStored(table.rows, row.code) {
      FreshCodeKeepsCodesUnique(table.rows, row.(id := table.nextId));
    }
    var _ := table.Insert(row);
    if row.isDefault {
      var _ := sync.SyncToA2Commerce(table, ext, pushFault);
    }
  }

  /** The form component. */
  class CreateForm {
    var code: string
    var symbol: string
    var name: string
    var rate: int
    var isAuto: bool
    var fee: Option<int>
    var countryTaxonomyId: Option<int>

    /** The declared initial values: empty texts, rate 1, manual, no fee, no country. */
    constructor ()
      ensures code == "" && symbol == "" && name == ""
      ensures rate == RateScale && !isAuto && fee.None? && countryTaxonomyId.None?
    {
      code, symbol, name := "", "", "";
      rate, isAuto, fee, countryTaxonomyId := RateScale, false, None, None;
    }

    function Input(): FormInput
      reads this
    {
      FormInput(code, symbol, name, rate, isAuto, fee, countryTaxonomyId)
    }

    /** `mount()`: with a default present the rate field shows 1. */
    method Mount(table: CurrencyTable)
      modifies this`rate
      ensures HasDefault(table.rows) ==> rate == RateScale
      ensures !HasDefault(table.rows) ==> rate == old(rate)
    {
      var d := FirstDefault(table.rows);
      if d.Some? {
        rate := RateScale;
      }
    }

    /**
     * `save()`: apply the fallback, run the checks (with the corrected
     * duplicate probe), insert the row, and push it to the external table if
     * it became the default.
     */
    method Save(table: CurrencyTable, sync: CurrencySyncService, ext: ExternalSettings, taxonomyIds: set<int>, pushFault: StorageFault)
      returns (outcome: SaveOutcome)
      requires table.Valid()
      modifies this`code, this`symbol, this`rate, table, sync, ext
      ensures (code, symbol) == Fallback(old(code), old(symbol))
      ensures var err := CorrectedCreateRejection(old(table.rows), old(Prepared(Input())), taxonomyIds);
        outcome == (if err.Some? then Rejected(err.value) else Created)
      ensures outcome.Rejected? ==> rate == old(rate) && table.rows == old(table.rows) && table.nextId == old(table.nextId)
      ensures outcome.Rejected? ==> ext.entries == old(ext.entries)
      ensures outcome.Created? ==>
        table.rows == old(table.rows) + [NewCurrency(old(table.rows), old(Prepared(Input()))).(id := old(table.nextId))]
      ensures outcome.Created? ==> table.nextId == old(table.nextId) + 1
      ensures outcome.Created? ==> rate == (if HasDefault(old(table.rows)) then old(rate) else RateScale)
      ensures outcome.Created? && !HasDefault(old(table.rows)) ==>
        ext.entries == PushEffect(old(sync.syncing), old(ext.hasTable), old(ext.entries), table.rows, pushFault).state
      ensures outcome.Created? && HasDefault(old(table.rows)) ==> ext.entries == old(ext.entries)
      ensures table.ratesLog == old(table.ratesLog) && table.conversionLog == old(table.conversionLog)
      ensures table.Valid() && sync.syncing == old(sync.syncing) && ext.hasTable == old(ext.hasTable)
      ensures old(DefaultRule(table.rows)) ==> DefaultRule(table.rows)
      ensures old(UniqueCodes(table.rows)) ==> UniqueCodes(table.rows)
    {
      ghost var prepared := Prepared(Input());
      var fallback := Fallback(code, symbol);
      code, symbol := fallback.0, fallback.1;
      var form := Input();
      assert form == prepared;
      var err := CorrectedRunChecks(table.rows, form, taxonomyIds);
      if err.Some? {
        return Rejected(err.value);
      }
      var isDefault := !HasDefault(table.rows);
      if isDefault {
        rate := RateScale;
      }
      AcceptedCodeIsFresh(table.rows, form, taxonomyIds);
      var row := NewCurrency(table.rows, form);
      InsertAndPush(table, sync, ext, row, pushFault);
      outcome := Created;
    }
  }
}
