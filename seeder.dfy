/**
 * The seeder that creates the base currency: skipped when a default exists,
 * otherwise the pair from the external settings table if both values are
 * present and truthy, or USD / "$".
 */
module CurrencySeeder {
  import opened Wrappers
  import opened PhpStrings
  import opened CurrencyModel
  import opened CurrencySync

  const FallbackCode: string := "USD"
  const FallbackSymbol: string := "$"

  /**
   * The (code, symbol) pair the seeder uses: the external pair when the table
   * exists, reading it does not fail and both values are truthy; otherwise
   * USD and "$". An absent key reads as NULL, which is falsy.
   */
  function SeedSource(hasTable: bool, entries: map<string, string>, readFails: bool): (r: (string, string))
    ensures IsTruthy(r.0) && IsTruthy(r.1)
    ensures || r == (FallbackCode, FallbackSymbol)
            || (CodeKey in entries && SymbolKey in entries && r == (entries[CodeKey], entries[SymbolKey]))
  {
    if readFails || !hasTable then (FallbackCode, FallbackSymbol)
    else
      var code := if CodeKey in entries then entries[CodeKey] else "";
      var symbol := if SymbolKey in entries then entries[SymbolKey] else "";
      if IsTruthy(code) && IsTruthy(symbol) then (code, symbol) else (FallbackCode, FallbackSymbol)
  }

  /** The row the seeder creates: upper-cased code, rate 1, manual, no fee, default and active. */
  function SeedCurrency(source: (string, string)): (r: Currency)
    ensures r.isDefault && r.isActive && r.rate == RateScale
    ensures r.code == Upper(source.0) && r.symbol == source.1
    ensures Upper(r.code) == r.code && |r.code| == |source.0|
  {
    UpperIdempotent(source.0);
    Currency(0, Upper(source.0), source.1, None, RateScale, false, None, true, None, true)
  }

  /** The seeder uses the external pair exactly when it can read two truthy values. */
  lemma SeedSourceCases(hasTable: bool, entries: map<string, string>, readFails: bool)
    ensures var external := !readFails && hasTable && CodeKey in entries && SymbolKey in entries
                            && IsTruthy(entries[CodeKey]) && IsTruthy(entries[SymbolKey]);
      && (external ==> SeedSource(hasTable, entries, readFails) == (entries[CodeKey], entries[SymbolKey]))
      && (!external ==> SeedSource(hasTable, entries, readFails) == (FallbackCode, FallbackSymbol))
  {
  }

  /**
   * Seeding a table without a default establishes the default rule, whatever
   * other rows it holds, and the seeded row is the one read as default.
   */
  lemma SeedingEstablishesDefaultRule(rows: seq<Currency>, source: (string, string), id: nat)
    requires !HasDefault(rows)
    ensures var after := rows + [SeedCurrency(source).(id := id)];
      DefaultRule(after) && FirstDefaultIndex(after) == Some(|rows|)
  {
    var after := rows + [SeedCurrency(source).(id := id)];
    assert forall j :: 0 <= j < |rows| ==> after[j] == rows[j];
    assert after[|rows|].isDefault;
  }

  /**
   * A base currency seeded from the external pair already agrees with it:
   * a `syncBoth()` right after seeding succeeds without writing.
   */
  lemma SeededFromExternalIsInSync(rows: seq<Currency>, entries: map<string, string>, id: nat, fault: StorageFault)
    requires !HasDefault(rows)
    requires CodeKey in entries && SymbolKey in entries
    requires SeedSource(true, entries, false) == (entries[CodeKey], entries[SymbolKey])
    ensures var after := rows + [SeedCurrency(SeedSource(true, entries, false)).(id := id)];
      SyncBothEffect(false, true, entries, after, fault) == Effect(true, entries)
  {
    var source := SeedSource(true, entries, false);
    SeedingEstablishesDefaultRule(rows, source, id);
    UpperIdempotent(entries[CodeKey]);
  }

  /** `run()`: create the base currency unless a default exists. */
  method Run(table: CurrencyTable, ext: ExternalSettings, readFails: bool) returns (created: bool)
    requires table.Valid()
    modifies table
    ensures created <==> !HasDefault(old(table.rows))
    ensures created ==> table.rows == old(table.rows) + [SeedCurrency(SeedSource(ext.hasTable, ext.entries, readFails)).(id := old(table.nextId))]
    ensures created ==> table.nextId == old(table.nextId) + 1
    ensures !created ==> table.rows == old(table.rows) && table.nextId == old(table.nextId)
    ensures table.ratesLog == old(table.ratesLog) && table.conversionLog == old(table.conversionLog)
    ensures table.Valid() && HasDefault(table.rows)
    ensures created || old(DefaultRule(table.rows)) ==> DefaultRule(table.rows)
  {
    var existing := FirstDefault(table.rows);
    if existing.Some? {
      return false;
    }
    var currencyCode, currencySymbol := FallbackCode, FallbackSymbol;
    if !readFails && ext.hasTable {
      var a2Code := if CodeKey in ext.entries then ext.entries[CodeKey] else "";
      var a2Symbol := if SymbolKey in ext.entries then ext.entries[SymbolKey] else "";
      if IsTruthy(a2Code) && IsTruthy(a2Symbol) {
        currencyCode, currencySymbol := a2Code, a2Symbol;
      }
    }
    SeedingEstablishesDefaultRule(table.rows, (currencyCode, currencySymbol), table.nextId);
    var _ := table.Insert(SeedCurrency((currencyCode, currencySymbol)));
    created := true;
  }

  /** Running the seeder twice has the effect of running it once. */
  lemma SeedTwiceIsSeedOnce(rows: seq<Currency>, source: (string, string), id: nat, source2: (string, string), id2: nat)
    ensures var once := if HasDefault(rows) then rows else rows + [SeedCurrency(source).(id := id)];
      var twice := if HasDefault(once) then once else once + [SeedCurrency(source2).(id := id2)];
      twice == once
  {
    if !HasDefault(rows) {
      SeedingEstablishesDefaultRule(rows, source, id);
    }
  }
}
