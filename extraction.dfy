/**
 * The extraction half of the script injected into each page: `parseTable`
 * turns the `tr` rows of the transaction table into transaction records and
 * drops the header row.
 */
module Extraction {
  import opened Wrappers

  /** A table cell, seen through its `innerHTML` text. */
  type Cell = string

  /** A `tr` element, seen through its child cells in document order. */
  type Row = seq<Cell>

  /**
   * The number `parseFloat` reads from a cell's text. Floating-point
   * parsing is not modelled: the amount is kept as the text it is read from.
   */
  datatype Amount = ParseFloat(text: string)

  /** One parsed row of the transaction table. */
  datatype Transaction = Transaction(account: string, transaction: string, amount: Amount, currency: string)

  /** The errors the injected script can throw (both are JavaScript TypeErrors). */
  datatype ScriptError =
    | MissingCell(row: nat)   // `tr.children[k]` is undefined for the row at this index
    | NoFrameBody             // `$fm.contentWindow.document.body` cannot be read

  /**
   * `s.substr(start)` with no length: a negative start counts back from the
   * end of the string and is clamped to 0; a start past the end gives "".
   */
  function Substr(s: string, start: int): (r: string)
    ensures |r| <= |s| && forall i :: 0 <= i < |r| ==> r[i] == s[|s| - |r| + i]
    ensures start >= 0 ==> |r| == if start <= |s| then |s| - start else 0
    ensures start < 0 ==> |r| == if -start <= |s| then -start else |s|
  {
    var from := if start < 0 then (if |s| + start < 0 then 0 else |s| + start)
                else (if start > |s| then |s| else start);
    s[from..]
  }

  /** The currency of a row: `substr(-1)` of the amount cell's text. */
  function Currency(amountCell: Cell): (c: string)
    ensures c == "" <==> amountCell == ""
    ensures amountCell != "" ==> c == [amountCell[|amountCell| - 1]]
  {
    Substr(amountCell, -1)
  }

  /** A row has the three cells a record is read from. */
  predicate HasCells(tr: Row) { |tr| >= 3 }

  predicate AllHaveCells(trs: seq<Row>) {
    forall k :: 0 <= k < |trs| ==> HasCells(trs[k])
  }

  /** The record the loop body of `parseTable` pushes for one row. */
  function RecordOf(tr: Row): Transaction
    requires HasCells(tr)
  {
    Transaction(tr[0], tr[1], ParseFloat(tr[2]), Currency(tr[2]))
  }

  /** The records of the rows, one per row, in row order. */
  function Records(trs: seq<Row>): (r: seq<Transaction>)
    requires AllHaveCells(trs)
    ensures |r| == |trs|
    ensures forall k :: 0 <= k < |trs| ==> r[k] == RecordOf(trs[k])
  {
    if trs == [] then []
    else
      var rest := Records(trs[1..]);
      assert forall k :: 1 <= k < |trs| ==> rest[k - 1] == RecordOf(trs[k]);
      [RecordOf(trs[0])] + rest
  }

  /** The index of the first row whose cells the loop cannot read. */
  function FirstShortRow(trs: seq<Row>): (k: nat)
    requires !AllHaveCells(trs)
    ensures k < |trs| && !HasCells(trs[k])
    ensures forall j :: 0 <= j < k ==> HasCells(trs[j])
  {
    if !HasCells(trs[0]) then 0
    else
      assert !AllHaveCells(trs[1..]) by {
        var k :| 0 <= k < |trs| && !HasCells(trs[k]);
        assert trs[1..][k - 1] == trs[k];
      }
      1 + FirstShortRow(trs[1..])
  }

  /** `Array.prototype.shift` with its result discarded: a no-op on an empty array. */
  function Shift<T>(xs: seq<T>): seq<T> {
    if xs == [] then [] else xs[1..]
  }

  /**
   * What `parseTable` returns for the given rows: every row mapped to a
   * record, in order, with the first (the table head) removed; or the
   * TypeError thrown at the first row with fewer than three cells.
   */
  function ParsedRecords(trs: seq<Row>): (r: Result<seq<Transaction>, ScriptError>)
    ensures r.Ok? <==> AllHaveCells(trs)
    ensures r.Err? ==> r.error == MissingCell(FirstShortRow(trs))
    ensures r.Ok? ==> |r.value| == if |trs| == 0 then 0 else |trs| - 1
    ensures r.Ok? ==> forall k :: 0 <= k < |r.value| ==> r.value[k] == RecordOf(trs[k + 1])
  {
    if AllHaveCells(trs) then Ok(Shift(Records(trs))) else Err(MissingCell(FirstShortRow(trs)))
  }

  /** `parseTable`: a loop pushing one record per row, then `shift` of the head. */
  method ParseTable(trs: seq<Row>) returns (r: Result<seq<Transaction>, ScriptError>)
    ensures r == ParsedRecords(trs)
  {
    var results: seq<Transaction> := [];
    for i := 0 to |trs|
      invariant |results| == i
      invariant forall j :: 0 <= j < i ==> HasCells(trs[j]) && results[j] == RecordOf(trs[j])
    {
      if !HasCells(trs[i]) {
        assert !AllHaveCells(trs);
        assert FirstShortRow(trs) == i;
        return Err(MissingCell(i));
      }
      results := results + [RecordOf(trs[i])];
    }
    assert AllHaveCells(trs);
    assert results == Records(trs);
    results := Shift(results);
    return Ok(results);
  }

  /**
   * The header row plus two data rows give two records, whose currencies are
   * the last characters of the raw amount texts.
   */
  lemma TwoRowExample()
    ensures ParsedRecords([["Account", "Transaction", "Amount"], ["A", "T1", "10.5USD"], ["B", "T2", "-3.0EUR"]])
         == Ok([Transaction("A", "T1", ParseFloat("10.5USD"), "D"),
                Transaction("B", "T2", ParseFloat("-3.0EUR"), "R")])
  {
    var trs := [["Account", "Transaction", "Amount"], ["A", "T1", "10.5USD"], ["B", "T2", "-3.0EUR"]];
    assert AllHaveCells(trs);
    var r := ParsedRecords(trs).value;
    assert Currency(trs[1][2]) == "D" && Currency(trs[2][2]) == "R";
    assert r == [RecordOf(trs[1]), RecordOf(trs[2])];
  }
}
