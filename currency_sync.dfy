/**
 * `CurrencySyncService`: keeps the default currency's code and symbol and
 * the external commerce settings table (`a2_ec_settings`, keys
 * `currency_code` and `currency_symbol`) in step, guarded by one
 * process-wide `syncing` flag.
 */
module CurrencySync {
  import opened Wrappers
  import opened PhpStrings
  import opened CurrencyModel

  const CodeKey: string := "currency_code"
  const SymbolKey: string := "currency_symbol"

  /** The external key-value table: whether the table exists, and its rows by key (a NULL value is an absent key). */
  class ExternalSettings {
    var hasTable: bool
    var entries: map<string, string>

    constructor (hasTable: bool, entries: map<string, string>)
      ensures this.hasTable == hasTable && this.entries == entries
    {
      this.hasTable, this.entries := hasTable, entries;
    }

    /** `updateOrInsert(['key' => key], ['value' => value])`. */
    method Upsert(key: string, value: string)
      modifies this`entries
      ensures entries == old(entries)[key := value]
    {
      entries := entries[key := value];
    }
  }

  /** The pair `getA2CommerceCurrency()` returns. */
  datatype ExternalCurrency = ExternalCurrency(code: string, symbol: string)

  /** `getA2CommerceCurrency()`: both keys of an existing table, or nothing if either is missing. */
  function A2Currency(hasTable: bool, entries: map<string, string>): (r: Option<ExternalCurrency>)
    ensures r.Some? <==> hasTable && CodeKey in entries && SymbolKey in entries
    ensures r.Some? ==> r.value.code == entries[CodeKey] && r.value.symbol == entries[SymbolKey]
  {
    if hasTable && CodeKey in entries && SymbolKey in entries then
      Some(ExternalCurrency(entries[CodeKey], entries[SymbolKey]))
    else
      None
  }

  /** The comparison `syncBoth()` makes: codes equal ignoring case, symbols equal exactly. */
  predicate InSync(d: Currency, x: ExternalCurrency) {
    Upper(d.code) == Upper(x.code) && d.symbol == x.symbol
  }

  /** The external rows after both upserts of a push of default currency `d`. */
  function Pushed(entries: map<string, string>, d: Currency): map<string, string> {
    entries[CodeKey := Upper(d.code)][SymbolKey := d.symbol]
  }

  /** The two keys are distinct, so each upsert of a push is visible afterwards. */
  lemma PushedReadsBack(entries: map<string, string>, d: Currency)
    ensures CodeKey != SymbolKey
    ensures Pushed(entries, d)[CodeKey] == Upper(d.code) && Pushed(entries, d)[SymbolKey] == d.symbol
  {
    assert CodeKey[9] != SymbolKey[9];
  }

  /** A push from a table whose only row is the default writes that row. */
  lemma PushOfOnlyRow(entries: map<string, string>, row: Currency)
    requires row.isDefault
    ensures var pushed := PushEffect(false, true, entries, [row], NoFault).state;
      && CodeKey in pushed && pushed[CodeKey] == Upper(row.code)
      && SymbolKey in pushed && pushed[SymbolKey] == row.symbol
  {
    assert FirstDefaultIndex([row]) == Some(0);
    PushedReadsBack(entries, row);
  }

  /** The currencies after a pull of `x` into the first default row. */
  function Pulled(rows: seq<Currency>, x: ExternalCurrency): seq<Currency>
    requires HasDefault(rows)
  {
    var i := FirstDefaultIndex(rows).value;
    rows[i := rows[i].(code := Upper(x.code), symbol := x.symbol)]
  }

  /** What an operation returned and the state of the table it may write. */
  datatype Effect<S> = Effect(ok: bool, state: S)

  /**
   * `syncToA2Commerce()` as a function of the flag, the external table, the
   * currencies and the storage fault: write 0 is the `currency_code` upsert,
   * write 1 the `currency_symbol` upsert.
   */
  function PushEffect(syncing: bool, hasTable: bool, entries: map<string, string>, rows: seq<Currency>, fault: StorageFault)
    : (e: Effect<map<string, string>>)
    ensures e.ok <==> !syncing && hasTable && HasDefault(rows) && !Throws(fault, 0) && !Throws(fault, 1)
    ensures e.ok ==> e.state == Pushed(entries, FirstDefault(rows).value)
    ensures entries.Keys <= e.state.Keys <= entries.Keys + {CodeKey, SymbolKey}
  {
    if syncing || !hasTable || !HasDefault(rows) || Throws(fault, 0) then Effect(false, entries)
    else
      var d := FirstDefault(rows).value;
      if Throws(fault, 1) then Effect(false, entries[CodeKey := Upper(d.code)])
      else Effect(true, Pushed(entries, d))
  }

  /**
   * `syncFromA2Commerce()` as a function: applied only when both external
   * keys exist, a default exists and its symbol already equals the external
   * one; write 0 is the update of the default row.
   */
  function PullEffect(syncing: bool, hasTable: bool, entries: map<string, string>, rows: seq<Currency>, fault: StorageFault)
    : (e: Effect<seq<Currency>>)
    ensures e.ok <==> && !syncing && A2Currency(hasTable, entries).Some? && HasDefault(rows)
                      && FirstDefault(rows).value.symbol == A2Currency(hasTable, entries).value.symbol
                      && !Throws(fault, 0)
    ensures |e.state| == |rows|
    ensures !e.ok ==> e.state == rows
  {
    if syncing || !hasTable then Effect(false, rows)
    else match A2Currency(hasTable, entries)
      case None => Effect(false, rows)
      case Some(x) =>
        if !HasDefault(rows) || FirstDefault(rows).value.symbol != x.symbol || Throws(fault, 0) then Effect(false, rows)
        else Effect(true, Pulled(rows, x))
  }

  /** `syncBoth()` as a function: the store is the source of truth, so any difference is pushed. */
  function SyncBothEffect(syncing: bool, hasTable: bool, entries: map<string, string>, rows: seq<Currency>, fault: StorageFault)
    : (e: Effect<map<string, string>>)
    ensures e.ok ==> !syncing && HasDefault(rows)
    ensures syncing ==> e == Effect(false, entries)
    ensures e.state == entries || e == PushEffect(false, hasTable, entries, rows, fault)
  {
    if syncing || !HasDefault(rows) then Effect(false, entries)
    else match A2Currency(hasTable, entries)
      case None => PushEffect(false, hasTable, entries, rows, fault)
      case Some(x) =>
        if InSync(FirstDefault(rows).value, x) then Effect(true, entries)
        else PushEffect(false, hasTable, entries, rows, fault)
  }

  // ------------------------------------------------------------ push facts

  /** A push that is already in flight, or finds no table or no default, fails and writes nothing. */
  lemma PushRefusals(syncing: bool, hasTable: bool, entries: map<string, string>, rows: seq<Currency>, fault: StorageFault)
    requires syncing || !hasTable || !HasDefault(rows)
    ensures PushEffect(syncing, hasTable, entries, rows, fault) == Effect(false, entries)
  {
  }

  /**
   * A push that goes through stores the upper-cased code and the symbol of
   * the default row and reports success.
   */
  lemma PushWritesDefault(hasTable: bool, entries: map<string, string>, rows: seq<Currency>)
    requires hasTable && HasDefault(rows)
    ensures var e := PushEffect(false, hasTable, entries, rows, NoFault);
      && e.ok
      && e.state[CodeKey] == Upper(FirstDefault(rows).value.code)
      && e.state[SymbolKey] == FirstDefault(rows).value.symbol
  {
  }

  /** Whatever happens, a push touches no key but `currency_code` and `currency_symbol`. */
  lemma PushTouchesOnlyCurrencyKeys(syncing: bool, hasTable: bool, entries: map<string, string>, rows: seq<Currency>, fault: StorageFault, k: string)
    requires k != CodeKey && k != SymbolKey
    ensures var after := PushEffect(syncing, hasTable, entries, rows, fault).state;
      (k in after <==> k in entries) && (k in entries ==> after[k] == entries[k])
  {
  }

  /** Pushing twice leaves the external table as pushing once. */
  lemma PushIdempotent(entries: map<string, string>, rows: seq<Currency>)
    requires HasDefault(rows)
    ensures var once := PushEffect(false, true, entries, rows, NoFault);
      PushEffect(false, true, once.state, rows, NoFault) == once
  {
    var d := FirstDefault(rows).value;
    assert Pushed(Pushed(entries, d), d) == Pushed(entries, d);
  }

  /** After a successful push the two sides agree, so `syncBoth()` then succeeds without writing. */
  lemma PushThenSyncBothWritesNothing(entries: map<string, string>, rows: seq<Currency>, fault: StorageFault)
    requires HasDefault(rows)
    ensures var pushed := PushEffect(false, true, entries, rows, NoFault).state;
      SyncBothEffect(false, true, pushed, rows, fault) == Effect(true, pushed)
  {
    var d := FirstDefault(rows).value;
    UpperIdempotent(d.code);
    assert A2Currency(true, Pushed(entries, d)) == Some(ExternalCurrency(Upper(d.code), d.symbol));
  }

  /** After a successful push, `getA2CommerceCurrency()` reads back the default's upper-cased code and its symbol. */
  lemma PushThenReadGivesDefault(entries: map<string, string>, rows: seq<Currency>)
    requires HasDefault(rows)
    ensures var d := FirstDefault(rows).value;
      A2Currency(true, PushEffect(false, true, entries, rows, NoFault).state) == Some(ExternalCurrency(Upper(d.code), d.symbol))
  {
    PushedReadsBack(entries, FirstDefault(rows).value);
  }

  // ------------------------------------------------------------ pull facts

  /**
   * A pull that is in flight, finds no table, misses either external key,
   * finds no default or sees a different symbol fails and leaves the
   * currencies as they were.
   */
  lemma PullRefusals(syncing: bool, hasTable: bool, entries: map<string, string>, rows: seq<Currency>, fault: StorageFault)
    requires || syncing || !hasTable || CodeKey !in entries || SymbolKey !in entries || !HasDefault(rows)
             || FirstDefault(rows).value.symbol != entries[SymbolKey]
    ensures PullEffect(syncing, hasTable, entries, rows, fault) == Effect(false, rows)
  {
  }

  /**
   * A successful pull rewrites only the default row, and only its code (to
   * the upper-cased external code) and symbol (to the external symbol).
   */
  lemma PullChangesOnlyDefaultRow(hasTable: bool, entries: map<string, string>, rows: seq<Currency>, fault: StorageFault)
    requires PullEffect(false, hasTable, entries, rows, fault).ok
    ensures var after := PullEffect(false, hasTable, entries, rows, fault).state;
      && HasDefault(rows)
      && var i := FirstDefaultIndex(rows).value;
      && |after| == |rows|
      && after[i] == rows[i].(code := Upper(entries[CodeKey]), symbol := entries[SymbolKey])
      && (forall j :: 0 <= j < |rows| && j != i ==> after[j] == rows[j])
  {
  }

  /** Rewriting the default row's code and symbol keeps the default rule. */
  lemma PulledKeepsDefaultRule(rows: seq<Currency>, x: ExternalCurrency)
    requires HasDefault(rows) && DefaultRule(rows)
    ensures DefaultRule(Pulled(rows, x))
    ensures forall j :: 0 <= j < |rows| ==> Pulled(rows, x)[j].id == rows[j].id
  {
    var i := FirstDefaultIndex(rows).value;
    assert Pulled(rows, x)[i].isDefault;
  }

  /** After a successful pull the two sides agree, so `syncBoth()` then succeeds without writing. */
  lemma PullThenSyncBothWritesNothing(hasTable: bool, entries: map<string, string>, rows: seq<Currency>, fault: StorageFault, fault2: StorageFault)
    requires PullEffect(false, hasTable, entries, rows, fault).ok
    ensures var pulled := PullEffect(false, hasTable, entries, rows, fault).state;
      SyncBothEffect(false, hasTable, entries, pulled, fault2) == Effect(true, entries)
  {
    var x := A2Currency(hasTable, entries).value;
    var i := FirstDefaultIndex(rows).value;
    var pulled := Pulled(rows, x);
    assert pulled[i].isDefault;
    assert forall j :: 0 <= j < i ==> pulled[j] == rows[j];
    assert FirstDefaultIndex(pulled) == Some(i);
    UpperIdempotent(x.code);
  }

  // -------------------------------------------------------- syncBoth facts

  /** A `syncBoth()` that is already in flight, or finds no default, fails and writes nothing. */
  lemma SyncBothRefusals(syncing: bool, hasTable: bool, entries: map<string, string>, rows: seq<Currency>, fault: StorageFault)
    requires syncing || !HasDefault(rows)
    ensures SyncBothEffect(syncing, hasTable, entries, rows, fault) == Effect(false, entries)
  {
  }

  /** `syncBoth()`: no default fails; no external pair or any difference pushes; agreement writes nothing. */
  lemma SyncBothCases(syncing: bool, hasTable: bool, entries: map<string, string>, rows: seq<Currency>, fault: StorageFault)
    requires !syncing
    ensures !HasDefault(rows) ==> SyncBothEffect(syncing, hasTable, entries, rows, fault) == Effect(false, entries)
    ensures HasDefault(rows) && A2Currency(hasTable, entries).None? ==>
      SyncBothEffect(syncing, hasTable, entries, rows, fault) == PushEffect(syncing, hasTable, entries, rows, fault)
    ensures HasDefault(rows) && A2Currency(hasTable, entries).Some? && InSync(FirstDefault(rows).value, A2Currency(hasTable, entries).value) ==>
      SyncBothEffect(syncing, hasTable, entries, rows, fault) == Effect(true, entries)
    ensures HasDefault(rows) && A2Currency(hasTable, entries).Some? && !InSync(FirstDefault(rows).value, A2Currency(hasTable, entries).value) ==>
      SyncBothEffect(syncing, hasTable, entries, rows, fault) == PushEffect(syncing, hasTable, entries, rows, fault)
  {
  }

  /** The service; the source's static `$syncing` is this object's field. */
  class CurrencySyncService {
    var syncing: bool

    constructor ()
      ensures !syncing
    {
      syncing := false;
    }

    /**
     * `syncToA2Commerce()`: push the default currency to the external table.
     * Whatever path it leaves by, the flag is as it was on entry.
     */
    method SyncToA2Commerce(currencies: CurrencyTable, ext: ExternalSettings, fault: StorageFault) returns (ok: bool)
      modifies this, ext
      ensures Effect(ok, ext.entries) == PushEffect(old(syncing), old(ext.hasTable), old(ext.entries), currencies.rows, fault)
      ensures syncing == old(syncing) && ext.hasTable == old(ext.hasTable)
    {
      if syncing {
        return false;
      }
      ok := false;
      label attempt: {
        if !ext.hasTable {
          break attempt;
        }
        var d := FirstDefault(currencies.rows);
        if d.None? {
          break attempt;
        }
        syncing := true;
        if Throws(fault, 0) {
          break attempt;
        }
        ext.Upsert(CodeKey, Upper(d.value.code));
        if Throws(fault, 1) {
          break attempt;
        }
        ext.Upsert(SymbolKey, d.value.symbol);
        ok := true;
      }
      syncing := false;   // the `finally` block
    }

    /**
     * `syncFromA2Commerce()`: pull the external pair into the default row
     * when the symbols already agree. The flag is as it was on entry.
     */
    method SyncFromA2Commerce(currencies: CurrencyTable, ext: ExternalSettings, fault: StorageFault) returns (ok: bool)
      requires currencies.Valid()
      modifies this, currencies`rows
      ensures Effect(ok, currencies.rows) == PullEffect(old(syncing), ext.hasTable, ext.entries, old(currencies.rows), fault)
      ensures syncing == old(syncing)
      ensures currencies.Valid()
      ensures old(DefaultRule(currencies.rows)) ==> DefaultRule(currencies.rows)
    {
      if syncing {
        return false;
      }
      ok := false;
      label attempt: {
        if !ext.hasTable {
          break attempt;
        }
        var x := A2Currency(ext.hasTable, ext.entries);
        if x.None? {
          break attempt;
        }
        var i := FirstDefaultIndex(currencies.rows);
        if i.None? {
          break attempt;
        }
        var d := currencies.rows[i.value];
        if d.symbol != x.value.symbol {
          break attempt;
        }
        syncing := true;
        if Throws(fault, 0) {
          break attempt;
        }
        if DefaultRule(currencies.rows) {
          PulledKeepsDefaultRule(currencies.rows, x.value);
        }
        currencies.UpdateAt(i.value, d.(code := Upper(x.value.code), symbol := x.value.symbol));
        ok := true;
      }
      syncing := false;   // the `finally` block
    }

    /** `syncBoth()`: compare both sides and push when they differ. */
    method SyncBoth(currencies: CurrencyTable, ext: ExternalSettings, fault: StorageFault) returns (ok: bool)
      modifies this, ext
      ensures Effect(ok, ext.entries) == SyncBothEffect(old(syncing), old(ext.hasTable), old(ext.entries), currencies.rows, fault)
      ensures syncing == old(syncing) && ext.hasTable == old(ext.hasTable)
    {
      if syncing {
        return false;
      }
      var d := FirstDefault(currencies.rows);
      var x := A2Currency(ext.hasTable, ext.entries);
      if d.None? {
        return false;
      }
      if x.None? {
        ok := SyncToA2Commerce(currencies, ext, fault);
        return;
      }
      var codeMatches := Upper(d.value.code) == Upper(x.value.code);
      var symbolMatches := d.value.symbol == x.value.symbol;
      if codeMatches && symbolMatches {
        return true;
      }
      ok := SyncToA2Commerce(currencies, ext, fault);
    }
  }
}
