/**
 * The currency list component: the expanded-row set, the search filter,
 * and the guarded toggle-active and delete actions.
 */
module CurrencyIndex {
  import opened Wrappers
  import opened Collections
  import opened PhpStrings
  import opened CurrencyModel

  /** How an action ended. */
  datatype ActionOutcome =
    | Done
    | NotFound            // no row with that id
    | DefaultProtected    // the guard refused to touch the default currency

  /** `toggleRow`: a listed id is removed (every occurrence), an unlisted one appended. */
  function Toggled(expanded: seq<int>, id: int): (r: seq<int>)
    ensures id in r <==> id !in expanded
    ensures forall x :: x != id ==> (x in r <==> x in expanded)
  {
    if id in expanded then Without(expanded, id) else expanded + [id]
  }

  /** Toggling an id that was not expanded, then toggling it again, restores the list exactly. */
  lemma ToggleTwiceRestores(expanded: seq<int>, id: int)
    requires id !in expanded
    ensures Toggled(Toggled(expanded, id), id) == expanded
  {
    WithoutUndoesAppend(expanded, id);
  }

  /** A row is listed when the search is PHP-empty ("" or "0") or occurs in its code or its symbol. */
  predicate Listed(search: string, c: Currency) {
    IsEmpty(search) || Contains(c.code, search) || Contains(c.symbol, search)
  }

  /** The rows `results()` lists, before ordering and pagination. */
  function Results(rows: seq<Currency>, search: string): (r: seq<Currency>)
    ensures forall c :: c in r <==> c in rows && Listed(search, c)
  {
    Filter(rows, c => Listed(search, c))
  }

  /** An empty search, and also the search "0", lists every row in order. */
  lemma EmptySearchListsAll(rows: seq<Currency>, search: string)
    requires search == "" || search == "0"
    ensures Results(rows, search) == rows
  {
    FilterKeepsPassing(rows, c => Listed(search, c));
  }

  /** Typing more after the search text never lists a row the shorter text hid. */
  lemma NarrowerSearchListsLess(search: string, more: string, c: Currency)
    ensures Listed(search + more, c) ==> Listed(search, c)
  {
    if IsEmpty(search + more) {
      if |search| == 1 {
        assert search[0] == (search + more)[0];
      }
    } else if Contains(c.code, search + more) {
      ContainsPrefix(c.code, search, more);
    } else if Contains(c.symbol, search + more) {
      ContainsPrefix(c.symbol, search, more);
    }
  }

  /** Narrowing the search keeps a subset of the rows listed, and never more of them. */
  lemma NarrowerSearchResultsShrink(rows: seq<Currency>, search: string, more: string)
    ensures forall c :: c in Results(rows, search + more) ==> c in Results(rows, search)
    ensures |Results(rows, search + more)| <= |Results(rows, search)|
  {
    forall c | Listed(search + more, c) ensures Listed(search, c) {
      NarrowerSearchListsLess(search, more, c);
    }
    FilterMonotone(rows, c => Listed(search + more, c), c => Listed(search, c));
  }

  /** `toggleActive($id)`: the outcome and the rows afterwards. */
  function ToggleActiveEffect(rows: seq<Currency>, id: int): (r: (ActionOutcome, seq<Currency>))
    ensures r.0 == NotFound <==> forall j :: 0 <= j < |rows| ==> rows[j].id != id
    ensures r.0 == DefaultProtected ==> exists j :: 0 <= j < |rows| && rows[j].id == id && rows[j].isDefault && rows[j].isActive
    ensures r.0 != Done ==> r.1 == rows
    ensures r.0 == Done ==> |r.1| == |rows|
    ensures r.0 == Done ==> (exists j ::
      && 0 <= j < |rows| && rows[j].id == id && !(rows[j].isDefault && rows[j].isActive)
      && r.1[j] == rows[j].(isActive := !rows[j].isActive)
      && (forall k :: 0 <= k < |rows| && k != j ==> r.1[k] == rows[k]))
  {
    match IndexOfId(rows, id)
    case None => (NotFound, rows)
    case Some(i) =>
      if rows[i].isDefault && rows[i].isActive then (DefaultProtected, rows)
      else (Done, rows[i := rows[i].(isActive := !rows[i].isActive)])
  }

  /** `delete($id)`: the outcome and the rows afterwards. */
  function DeleteEffect(rows: seq<Currency>, id: int): (r: (ActionOutcome, seq<Currency>))
    ensures r.0 == NotFound <==> forall j :: 0 <= j < |rows| ==> rows[j].id != id
    ensures r.0 == DefaultProtected ==> exists j :: 0 <= j < |rows| && rows[j].id == id && rows[j].isDefault
    ensures r.0 != Done ==> r.1 == rows
    ensures r.0 == Done ==> |r.1| == |rows| - 1
    ensures r.0 == Done ==> (exists j ::
      && 0 <= j < |rows| && rows[j].id == id && !rows[j].isDefault
      && r.1 == rows[..j] + rows[j + 1..])
  {
    match IndexOfId(rows, id)
    case None => (NotFound, rows)
    case Some(i) =>
      if rows[i].isDefault then (DefaultProtected, rows)
      else (Done, rows[..i] + rows[i + 1..])
  }

  /**
   * Toggling never deactivates an active default and never changes which
   * rows are defaults, so it keeps the default rule.
   */
  lemma ToggleActiveKeepsDefaultRule(rows: seq<Currency>, id: int)
    requires DefaultRule(rows)
    ensures DefaultRule(ToggleActiveEffect(rows, id).1)
    ensures DefaultIds(ToggleActiveEffect(rows, id).1) == DefaultIds(rows)
  {
    match IndexOfId(rows, id)
    case None =>
    case Some(i) =>
      if !(rows[i].isDefault && rows[i].isActive) {
        FlippingNonDefaultKeepsDefaultRule(rows, i);
      }
  }

  /** Flipping `is_active` on a row the guard lets through keeps the default rule and the default ids. */
  lemma FlippingNonDefaultKeepsDefaultRule(rows: seq<Currency>, i: nat)
    requires DefaultRule(rows) && i < |rows| && !(rows[i].isDefault && rows[i].isActive)
    ensures var after := rows[i := rows[i].(isActive := !rows[i].isActive)];
      DefaultRule(after) && DefaultIds(after) == DefaultIds(rows)
  {
    var after := rows[i := rows[i].(isActive := !rows[i].isActive)];
    assert !rows[i].isDefault;
    assert forall j :: 0 <= j < |rows| ==> after[j].isDefault == rows[j].isDefault && after[j].id == rows[j].id;
    assert forall j :: 0 <= j < |rows| && j != i ==> after[j] == rows[j];
    if |rows| > 0 {
      var k :| 0 <= k < |rows| && rows[k].isDefault;
      assert after[k].isDefault;
    }
  }

  /** Deleting never removes the default, so it keeps the default rule and the default id. */
  lemma DeleteKeepsDefaultRule(rows: seq<Currency>, id: int)
    requires DefaultRule(rows)
    ensures DefaultRule(DeleteEffect(rows, id).1)
    ensures DefaultIds(DeleteEffect(rows, id).1) == DefaultIds(rows)
  {
    match IndexOfId(rows, id)
    case None =>
    case Some(i) =>
      if !rows[i].isDefault {
        RemovingNonDefaultKeepsDefaultRule(rows, i);
      }
  }

  lemma RemovingNonDefaultKeepsDefaultRule(rows: seq<Currency>, i: nat)
    requires DefaultRule(rows) && i < |rows| && !rows[i].isDefault
    ensures DefaultRule(rows[..i] + rows[i + 1..])
    ensures DefaultIds(rows[..i] + rows[i + 1..]) == DefaultIds(rows)
  {
    var after := rows[..i] + rows[i + 1..];
    assert forall a :: 0 <= a < |after| ==> after[a] == rows[if a < i then a else a + 1];
    var k :| 0 <= k < |rows| && rows[k].isDefault;
    var k' := if k < i then k else k - 1;
    assert after[k'] == rows[k];
    assert SingleDefault(after) by {
      forall a, b | 0 <= a < |after| && 0 <= b < |after| && after[a].isDefault && after[b].isDefault
        ensures a == b
      {
        assert rows[if a < i then a else a + 1].isDefault;
        assert rows[if b < i then b else b + 1].isDefault;
      }
    }
    DefaultRuleGivesOneDefaultId(rows);
    assert DefaultIds(rows) == {rows[k].id};
    assert DefaultIds(after) == {after[k'].id} by {
      forall x | x in DefaultIds(after) ensures x == after[k'].id {
        var a :| 0 <= a < |after| && after[a].isDefault && after[a].id == x;
      }
    }
  }

  /** The list component's state. */
  class CurrencyList {
    var search: string
    var perPage: int
    var expandedRows: seq<int>

    constructor ()
      ensures search == "" && perPage == 10 && expandedRows == []
    {
      search, perPage, expandedRows := "", 10, [];
    }

    method ToggleRow(currencyId: int)
      modifies this`expandedRows
      ensures expandedRows == Toggled(old(expandedRows), currencyId)
    {
      if currencyId in expandedRows {
        expandedRows := Without(expandedRows, currencyId);
      } else {
        expandedRows := expandedRows + [currencyId];
      }
    }

    method ToggleActive(table: CurrencyTable, currencyId: int) returns (outcome: ActionOutcome)
      requires table.Valid()
      modifies table`rows
      ensures (outcome, table.rows) == ToggleActiveEffect(old(table.rows), currencyId)
      ensures table.Valid()
      ensures old(DefaultRule(table.rows)) ==> DefaultRule(table.rows)
    {
      var i := IndexOfId(table.rows, currencyId);
      if i.None? {
        return NotFound;
      }
      var currency := table.rows[i.value];
      if currency.isDefault && currency.isActive {
        return DefaultProtected;
      }
      if DefaultRule(table.rows) {
        ToggleActiveKeepsDefaultRule(table.rows, currencyId);
      }
      table.UpdateAt(i.value, currency.(isActive := !currency.isActive));
      outcome := Done;
    }

    method Delete(table: CurrencyTable, currencyId: int) returns (outcome: ActionOutcome)
      requires table.Valid()
      modifies table`rows, table`ratesLog, table`conversionLog
      ensures (outcome, table.rows) == DeleteEffect(old(table.rows), currencyId)
      ensures outcome == Done ==>
        && table.ratesLog == Filter(old(table.ratesLog), (e: RateLogEntry) => e.currencyId != currencyId)
        && table.conversionLog == Filter(old(table.conversionLog), (e: ConversionLogEntry) => e.currencyId != currencyId)
      ensures outcome != Done ==> table.ratesLog == old(table.ratesLog) && table.conversionLog == old(table.conversionLog)
      ensures table.Valid()
      ensures old(DefaultRule(table.rows)) ==> DefaultRule(table.rows)
    {
      var i := IndexOfId(table.rows, currencyId);
      if i.None? {
        return NotFound;
      }
      var currency := table.rows[i.value];
      if currency.isDefault {
        return DefaultProtected;
      }
      if DefaultRule(table.rows) {
        DeleteKeepsDefaultRule(table.rows, currencyId);
      }
      table.DeleteAt(i.value);
      outcome := Done;
    }
  }
}
