/**
 * The `Currency` model and the `atu_multicurrency_currencies` table with its
 * two log tables. Decimal columns are carried as scaled integers: a rate of
 * 1.5 is `150_000_000` (decimal(18, 8)), a fee of 2 is `20_000` (decimal(12, 4)).
 */
module CurrencyModel {
  import opened Wrappers
  import opened Collections

  /** Units of a rate per 1: the `decimal:8` cast. */
  const RateScale: nat := 100_000_000
  /** Units of a fee per 1: the `decimal:4` cast. */
  const FeeScale: nat := 10_000

  /** One row of the currencies table. */
  datatype Currency = Currency(
    id: nat,
    code: string,
    symbol: string,
    name: Option<string>,
    rate: int,                     // units of 10^-8
    isAuto: bool,
    fee: Option<int>,              // units of 10^-4
    isDefault: bool,
    countryTaxonomyId: Option<int>,
    isActive: bool)

  datatype RateSource = Manual | Api

  /** A row of the rate history table; only its currency reference matters to the core. */
  datatype RateLogEntry = RateLogEntry(id: nat, currencyId: nat, rate: int, source: RateSource)

  /** A row of the conversion audit table; amounts in units of 10^-6, rate 10^-8, fee 10^-4. */
  datatype ConversionLogEntry = ConversionLogEntry(
    id: nat, currencyId: nat, entityType: string, entityId: Option<nat>, context: string,
    baseCurrencyCode: string, targetCurrencyCode: string, baseAmount: int, convertedAmount: int,
    rateUsed: int, feeApplied: Option<int>, rateSource: RateSource, userId: Option<nat>)

  // ---------------------------------------------------------------- scopes

  /** The four query scopes of the model. */
  datatype Scope = ActiveScope | DefaultScope | AutoScope | ManualScope

  /** The `where` each scope adds. */
  predicate Satisfies(c: Currency, s: Scope) {
    match s
    case ActiveScope => c.isActive
    case DefaultScope => c.isDefault
    case AutoScope => c.isAuto
    case ManualScope => !c.isAuto
  }

  /** A query restricted by one scope. */
  function Where(rows: seq<Currency>, s: Scope): (r: seq<Currency>)
    ensures forall c :: c in r <==> c in rows && Satisfies(c, s)
  {
    Filter(rows, c => Satisfies(c, s))
  }

  /** A query with the scopes chained in order, e.g. `Currency::active()->auto()`. */
  function Query(rows: seq<Currency>, scopes: seq<Scope>): (r: seq<Currency>)
    ensures |r| <= |rows|
    ensures forall c :: c in r ==> c in rows
    decreases |scopes|
  {
    if scopes == [] then rows else Query(Where(rows, scopes[0]), scopes[1..])
  }

  /** Chained scopes keep exactly the rows that satisfy every one of them. */
  lemma {:induction false} QueryKeepsExactlyMatching(rows: seq<Currency>, scopes: seq<Scope>)
    ensures forall c :: c in Query(rows, scopes) <==> c in rows && forall s :: s in scopes ==> Satisfies(c, s)
    decreases |scopes|
  {
    if scopes != [] {
      QueryKeepsExactlyMatching(Where(rows, scopes[0]), scopes[1..]);
      assert forall s :: s in scopes <==> s == scopes[0] || s in scopes[1..];
    }
  }

  /** `auto` and `manual` split every query result into two disjoint parts that together make it up. */
  lemma {:induction false} AutoManualPartition(rows: seq<Currency>)
    ensures multiset(Where(rows, AutoScope)) + multiset(Where(rows, ManualScope)) == multiset(rows)
    ensures forall c :: !(c in Where(rows, AutoScope) && c in Where(rows, ManualScope))
  {
    if rows != [] {
      AutoManualPartition(rows[1..]);
      assert rows == [rows[0]] + rows[1..];
    }
  }

  // ------------------------------------------------------------- relations

  /** `ratesLog()`: the rate history rows that belong to currency `c`. */
  function RatesLogOf(c: Currency, log: seq<RateLogEntry>): (r: seq<RateLogEntry>)
    ensures forall e :: e in r <==> e in log && e.currencyId == c.id
  {
    Filter(log, (e: RateLogEntry) => e.currencyId == c.id)
  }

  /** `conversionLogs()`: the conversion audit rows that belong to currency `c`. */
  function ConversionLogsOf(c: Currency, log: seq<ConversionLogEntry>): (r: seq<ConversionLogEntry>)
    ensures forall e :: e in r <==> e in log && e.currencyId == c.id
  {
    Filter(log, (e: ConversionLogEntry) => e.currencyId == c.id)
  }

  // ------------------------------------------------------- table look-ups

  predicate HasDefault(rows: seq<Currency>) {
    exists i :: 0 <= i < |rows| && rows[i].isDefault
  }

  /** `where('is_default', true)->first()`: the position of the earliest default row. */
  function FirstDefaultIndex(rows: seq<Currency>): (r: Option<nat>)
    ensures r.None? <==> !HasDefault(rows)
    ensures r.Some? ==> r.value < |rows| && rows[r.value].isDefault
    ensures r.Some? ==> forall j :: 0 <= j < r.value ==> !rows[j].isDefault
  {
    if rows == [] then None
    else if rows[0].isDefault then Some(0)
    else match FirstDefaultIndex(rows[1..])
      case None => None
      case Some(k) => Some(k + 1)
  }

  /** The default currency row, as `getDefaultCurrency()` reads it. */
  function FirstDefault(rows: seq<Currency>): (r: Option<Currency>)
    ensures r.None? <==> !HasDefault(rows)
    ensures r.Some? ==> r.value in rows && r.value.isDefault
    ensures r.Some? && SingleDefault(rows) ==> forall c :: c in rows && c.isDefault ==> c == r.value
  {
    match FirstDefaultIndex(rows)
    case None => None
    case Some(i) => Some(rows[i])
  }

  /** `where('id', id)->first()`: the position of the row with that id. */
  function IndexOfId(rows: seq<Currency>, id: int): (r: Option<nat>)
    ensures r.None? <==> forall j :: 0 <= j < |rows| ==> rows[j].id != id
    ensures r.Some? ==> r.value < |rows| && rows[r.value].id == id
  {
    if rows == [] then None
    else if rows[0].id == id then Some(0)
    else match IndexOfId(rows[1..], id)
      case None => None
      case Some(k) => Some(k + 1)
  }

  predicate HasId(rows: seq<Currency>, id: nat) {
    exists i :: 0 <= i < |rows| && rows[i].id == id
  }

  /** A row with exactly this code exists (`where('code', code)->exists()`). */
  predicate CodeStored(rows: seq<Currency>, code: string) {
    exists i :: 0 <= i < |rows| && rows[i].code == code
  }

  /** The ids of the default rows. */
  function DefaultIds(rows: seq<Currency>): set<nat> {
    set i | 0 <= i < |rows| && rows[i].isDefault :: rows[i].id
  }

  // ------------------------------------------------------------ invariants

  /** What the schema guarantees: increasing primary keys below the next one, and log rows that reference a currency. */
  ghost predicate SchemaInvariant(rows: seq<Currency>, nextId: nat, rates: seq<RateLogEntry>, conversions: seq<ConversionLogEntry>) {
    && (forall i, j :: 0 <= i < j < |rows| ==> rows[i].id < rows[j].id)
    && (forall i :: 0 <= i < |rows| ==> rows[i].id < nextId)
    && (forall e :: e in rates ==> HasId(rows, e.currencyId))
    && (forall e :: e in conversions ==> HasId(rows, e.currencyId))
  }

  /** At most one row is the default. */
  predicate SingleDefault(rows: seq<Currency>) {
    forall i, j :: 0 <= i < |rows| && 0 <= j < |rows| && rows[i].isDefault && rows[j].isDefault ==> i == j
  }

  /**
   * The default-currency rule the store's operations keep: at most one
   * default, the default is active and has rate exactly 1, and a non-empty
   * table has a default.
   */
  predicate DefaultRule(rows: seq<Currency>) {
    && SingleDefault(rows)
    && (forall i :: 0 <= i < |rows| && rows[i].isDefault ==> rows[i].isActive && rows[i].rate == RateScale)
    && (|rows| > 0 ==> HasDefault(rows))
  }

  /** Under the default rule, the table has one default id when it has rows, none otherwise. */
  lemma DefaultRuleGivesOneDefaultId(rows: seq<Currency>)
    requires DefaultRule(rows)
    ensures |rows| > 0 ==> exists i :: 0 <= i < |rows| && DefaultIds(rows) == {rows[i].id}
    ensures |rows| == 0 ==> DefaultIds(rows) == {}
  {
    if |rows| > 0 {
      var i :| 0 <= i < |rows| && rows[i].isDefault;
      assert DefaultIds(rows) == {rows[i].id};
    }
  }

  /** The table of currencies, its id counter and the two tables that reference it. */
  class CurrencyTable {
    var rows: seq<Currency>
    var nextId: nat
    var ratesLog: seq<RateLogEntry>
    var conversionLog: seq<ConversionLogEntry>

    ghost predicate Valid()
      reads this
    {
      SchemaInvariant(rows, nextId, ratesLog, conversionLog)
    }

    constructor ()
      ensures Valid() && DefaultRule(rows)
      ensures rows == [] && ratesLog == [] && conversionLog == []
    {
      rows, nextId, ratesLog, conversionLog := [], 1, [], [];
    }

    /** `insert`: appends `c` under the next primary key and returns that key. */
    method Insert(c: Currency) returns (id: nat)
      requires Valid()
      modifies this
      ensures Valid()
      ensures id == old(nextId) && nextId == id + 1
      ensures rows == old(rows) + [c.(id := id)]
      ensures ratesLog == old(ratesLog) && conversionLog == old(conversionLog)
    {
      id := nextId;
      rows := rows + [c.(id := id)];
      nextId := nextId + 1;
      assert forall e :: e in ratesLog ==> HasId(rows, e.currencyId) by {
        forall e | e in ratesLog ensures HasId(rows, e.currencyId) {
          var k :| 0 <= k < |old(rows)| && old(rows)[k].id == e.currencyId;
          assert rows[k] == old(rows)[k];
        }
      }
      assert forall e :: e in conversionLog ==> HasId(rows, e.currencyId) by {
        forall e | e in conversionLog ensures HasId(rows, e.currencyId) {
          var k :| 0 <= k < |old(rows)| && old(rows)[k].id == e.currencyId;
          assert rows[k] == old(rows)[k];
        }
      }
    }

    /** `where('id', rows[i].id)->update(...)`: replaces row `i`, keeping its key. */
    method UpdateAt(i: nat, c: Currency)
      requires Valid() && i < |rows| && c.id == rows[i].id
      modifies this`rows
      ensures Valid()
      ensures rows == old(rows)[i := c]
    {
      rows := rows[i := c];
      assert forall e :: e in ratesLog ==> HasId(rows, e.currencyId) by {
        forall e | e in ratesLog ensures HasId(rows, e.currencyId) {
          var k :| 0 <= k < |old(rows)| && old(rows)[k].id == e.currencyId;
          assert rows[k].id == old(rows)[k].id;
        }
      }
      assert forall e :: e in conversionLog ==> HasId(rows, e.currencyId) by {
        forall e | e in conversionLog ensures HasId(rows, e.currencyId) {
          var k :| 0 <= k < |old(rows)| && old(rows)[k].id == e.currencyId;
          assert rows[k].id == old(rows)[k].id;
        }
      }
    }

    /**
     * `where('id', rows[i].id)->delete()`: removes row `i`; the foreign keys'
     * `cascade` removes the log rows that reference it.
     */
    method DeleteAt(i: nat)
      requires Valid() && i < |rows|
      modifies this`rows, this`ratesLog, this`conversionLog
      ensures Valid()
      ensures rows == old(rows)[..i] + old(rows)[i + 1..]
      ensures var gone := old(rows)[i].id;
        && ratesLog == Filter(old(ratesLog), (e: RateLogEntry) => e.currencyId != gone)
        && conversionLog == Filter(old(conversionLog), (e: ConversionLogEntry) => e.currencyId != gone)
    {
      var gone := rows[i].id;
      RemovingRowKeepsOthers(rows, i, nextId);
      rows := rows[..i] + rows[i + 1..];
      ratesLog := Filter(ratesLog, (e: RateLogEntry) => e.currencyId != gone);
      conversionLog := Filter(conversionLog, (e: ConversionLogEntry) => e.currencyId != gone);
    }
  }

  /** Removing one row keeps the keys ordered and every other key present. */
  lemma RemovingRowKeepsOthers(rows: seq<Currency>, i: nat, nextId: nat)
    requires i < |rows|
    requires forall a, b :: 0 <= a < b < |rows| ==> rows[a].id < rows[b].id
    ensures var rest := rows[..i] + rows[i + 1..];
      && (forall a, b :: 0 <= a < b < |rest| ==> rest[a].id < rest[b].id)
      && (forall id :: HasId(rows, id) && id != rows[i].id ==> HasId(rest, id))
  {
    var rest := rows[..i] + rows[i + 1..];
    assert forall a :: 0 <= a < |rest| ==> rest[a] == if a < i then rows[a] else rows[a + 1];
    forall id | HasId(rows, id) && id != rows[i].id ensures HasId(rest, id) {
      var k :| 0 <= k < |rows| && rows[k].id == id;
      if k < i { assert rest[k] == rows[k]; } else { assert rest[k - 1] == rows[k]; }
    }
  }
}
