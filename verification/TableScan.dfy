/**
 * The table-existence scan of hasSchema: the adapter pulls one column value
 * at a time from the cursor the probe query returned and stops at the first
 * value equal to the configured table name or at the first value PHP reads as
 * false.
 */
module TableScan {

  /** What one fetchColumn call yields: a column value, or false once the rows run out. */
  datatype Column = Value(text: string) | NoMoreRows

  /** The result of the fetchColumn call at position `pos` of the cursor. */
  function FetchColumn(cursor: seq<string>, pos: nat): (c: Column)
    ensures c.Value? <==> pos < |cursor|
    ensures c.Value? ==> c.text == cursor[pos]
  {
    if pos < |cursor| then Value(cursor[pos]) else NoMoreRows
  }

  /** PHP truthiness of a fetched value: false, "" and "0" are falsy. */
  predicate Truthy(c: Column) {
    c.Value? && c.text != "" && c.text != "0"
  }

  /** The number of leading entries the while condition accepts before it sees a falsy value. */
  function LiveLength(cursor: seq<string>): (n: nat)
    ensures n <= |cursor|
    ensures forall i :: 0 <= i < n ==> Truthy(FetchColumn(cursor, i))
    ensures !Truthy(FetchColumn(cursor, n))
  {
    if cursor == [] || !Truthy(Value(cursor[0])) then 0
    else
      var rest := LiveLength(cursor[1..]);
      assert forall i :: 1 <= i < rest + 1 ==> FetchColumn(cursor, i) == FetchColumn(cursor[1..], i - 1);
      assert FetchColumn(cursor, rest + 1) == FetchColumn(cursor[1..], rest);
      1 + rest
  }

  /** What hasSchema answers: the table name is among the entries before the first falsy one. */
  predicate TableListed(cursor: seq<string>, tableName: string) {
    tableName in cursor[..LiveLength(cursor)]
  }

  /**
   * The scan loop. `found` is the answer; `fetches` counts the fetchColumn
   * calls made: up to and including the match, or up to and including the
   * call that returned a falsy value.
   */
  method Scan(cursor: seq<string>, tableName: string) returns (found: bool, fetches: nat)
    ensures found <==> TableListed(cursor, tableName)
    ensures found ==> 1 <= fetches <= LiveLength(cursor)
                      && cursor[fetches - 1] == tableName
                      && tableName !in cursor[..fetches - 1]
    ensures !found ==> fetches == LiveLength(cursor) + 1
  {
    ghost var live := LiveLength(cursor);
    var table := FetchColumn(cursor, 0);
    fetches := 1;
    while Truthy(table)
      invariant 1 <= fetches <= live + 1
      invariant table == FetchColumn(cursor, fetches - 1)
      invariant tableName !in cursor[..fetches - 1]
      decreases |cursor| + 1 - fetches
    {
      if table.text == tableName {
        assert cursor[..live][fetches - 1] == tableName;
        return true, fetches;
      }
      assert cursor[..fetches] == cursor[..fetches - 1] + [table.text];
      table := FetchColumn(cursor, fetches);
      fetches := fetches + 1;
    }
    assert cursor[..live] == cursor[..fetches - 1];
    return false, fetches;
  }

  /** When no entry is falsy the scan is plain membership. */
  lemma AllTruthyIsMembership(cursor: seq<string>, tableName: string)
    requires forall i :: 0 <= i < |cursor| ==> cursor[i] != "" && cursor[i] != "0"
    ensures TableListed(cursor, tableName) <==> tableName in cursor
  {
  }

  /** An empty cursor never lists the table. */
  lemma EmptyCursorNotListed(tableName: string)
    ensures !TableListed([], tableName)
  {
  }

  /** A listed table is always in the cursor: the scan never reports a table that is absent. */
  lemma ListedImpliesPresent(cursor: seq<string>, tableName: string)
    ensures TableListed(cursor, tableName) ==> tableName in cursor
  {
  }

  /** A falsy table name, "" or "0", is never found, whatever the cursor holds. */
  lemma FalsyTableNameNeverListed(cursor: seq<string>, tableName: string)
    requires tableName == "" || tableName == "0"
    ensures !TableListed(cursor, tableName)
  {
    var live := LiveLength(cursor);
    forall i | 0 <= i < live
      ensures cursor[..live][i] != tableName
    {
      assert Truthy(FetchColumn(cursor, i));
    }
  }

  /** A table named "0" listed first hides every table after it. */
  lemma ZeroNamedTableHidesLaterTables(rest: seq<string>, tableName: string)
    ensures !TableListed(["0"] + rest, tableName)
  {
  }
}
