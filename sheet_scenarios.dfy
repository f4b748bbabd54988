/** The set-and-get scenario of SpreadsheetTest.java, run on a spreadsheet object. */
module SheetScenarios {
  import opened Wrappers
  import opened Errors
  import opened Text
  import opened Formula
  import opened Evaluation
  import opened Sheet
  import opened Dependencies
  import Scenarios

  /** The keys of column A, B or C in row 1. */
  lemma {:induction false} RowOneKeys()
    ensures CreateKey("A", 1) == "A1" && CreateKey("B", 1) == "B1" && CreateKey("C", 1) == "C1"
    ensures IsReference("A1") && RefKey("A1") == "A1"
    ensures IsReference("B1") && RefKey("B1") == "B1"
    ensures IsReference("C1") && RefKey("C1") == "C1"
  {
    Scenarios.ShortKey('A', '1');
    Scenarios.ShortKey('B', '1');
    Scenarios.ShortKey('C', '1');
    Scenarios.KeyName('A', 1);
    Scenarios.KeyName('B', 1);
    Scenarios.KeyName('C', 1);
    assert DigitChar(1) == '1';
  }

  /** No cell of the sheet holds a cached value. */
  predicate NothingCached(sheet: Spreadsheet)
    reads sheet, sheet.cells.Values
  {
    forall k | k in sheet.cells :: sheet.cells[k].evaluated == None
  }

  /**
   * Setting a cell of a sheet that caches no value and reading it back
   * gives the content just stored.
   */
  method SetThenGet(sheet: Spreadsheet, column: string, row: int, content: string) returns (read: string, out: Outcome<EvalError>)
    requires sheet.Valid() && NothingCached(sheet) && content != ""
    requires IsReference(CreateKey(column, row)) && RefKey(CreateKey(column, row)) == CreateKey(column, row)
    modifies sheet, sheet.cells.Values
    ensures sheet.Valid() && NothingCached(sheet) && read == content
    ensures out.Pass? <==> !Mentioned(ScannedTokens(content), CreateKey(column, row))
    ensures forall k | k in sheet.cells :: (k in old(sheet.cells) && sheet.cells[k] == old(sheet.cells[k])) || fresh(sheet.cells[k])
  {
    ghost var key := CreateKey(column, row);
    out := sheet.SetCellContent(column, row, content);
    assert out.Pass? <==> !Mentioned(ScannedTokens(content), key);
    assert forall k | k in sheet.cells :: sheet.cells[k].evaluated == None;
    assert key in sheet.cells && sheet.cells[key].content == content;
    assert key in sheet.Snapshot() && sheet.Snapshot()[key] == CellState(content, None);
    read := sheet.GetCellContent(column, row);
  }

  /**
   * Any three nonempty contents stored in A1, B1 and C1 of a new
   * spreadsheet each read back exactly as stored.
   */
  method SetRowOne(x: string, y: string, z: string)
    returns (rx: string, ry: string, rz: string, ox: Outcome<EvalError>, oy: Outcome<EvalError>, oz: Outcome<EvalError>)
    requires x != "" && y != "" && z != ""
    ensures rx == x && ry == y && rz == z
    ensures ox.Pass? <==> !Mentioned(ScannedTokens(x), "A1")
    ensures oy.Pass? <==> !Mentioned(ScannedTokens(y), "B1")
    ensures oz.Pass? <==> !Mentioned(ScannedTokens(z), "C1")
  {
    RowOneKeys();
    var sheet := new Spreadsheet();
    rx, ox := SetThenGet(sheet, "A", 1, x);
    ry, rz, oy, oz := SetColumnsBC(sheet, y, z);
  }

  /** The B1 and C1 steps of the scenario, on a sheet that caches no value. */
  method SetColumnsBC(sheet: Spreadsheet, y: string, z: string)
    returns (ry: string, rz: string, oy: Outcome<EvalError>, oz: Outcome<EvalError>)
    requires sheet.Valid() && NothingCached(sheet) && y != "" && z != ""
    modifies sheet, sheet.cells.Values
    ensures ry == y && rz == z
    ensures oy.Pass? <==> !Mentioned(ScannedTokens(y), "B1")
    ensures oz.Pass? <==> !Mentioned(ScannedTokens(z), "C1")
  {
    RowOneKeys();
    ry, oy := SetThenGet(sheet, "B", 1, y);
    rz, oz := SetThenGet(sheet, "C", 1, z);
  }

  /** The tokens setCellContent scans in the scenario's formula. */
  lemma {:induction false} FormulaTokens()
    ensures ScannedTokens("=A1+B1") == ["A1", "+", "B1"]
  {
    var ts := ["A1", "+", "B1"];
    assert Concat(ts) == "A1+B1";
    SplitOfPieces(ts, RefDelims);
    assert "=A1+B1"[1..] == "A1+B1";
  }

  /** Content that does not start with `=` is scanned for no references. */
  lemma {:induction false} PlainText(s: string)
    requires s != [] && s[0] != '='
    ensures ScannedTokens(s) == []
  {
    assert s[..1] != "=" by { assert s[..1][0] == s[0]; }
  }

  /** None of the scenario's contents mentions the key it is stored under. */
  lemma {:induction false} RowOneAccepted()
    ensures !Mentioned(ScannedTokens("Hello"), "A1")
    ensures !Mentioned(ScannedTokens("42"), "B1")
    ensures !Mentioned(ScannedTokens("=A1+B1"), "C1")
  {
    PlainText("Hello");
    PlainText("42");
    FormulaTokens();
  }

  /**
   * The scenario's text, number and formula in A1, B1 and C1: each reads back
   * as stored, and no update fails.
   */
  method SetAndGet() returns (text: string, number: string, formula: string, outs: seq<Outcome<EvalError>>)
    ensures text == "Hello" && number == "42" && formula == "=A1+B1"
    ensures outs == [Pass, Pass, Pass]
  {
    RowOneAccepted();
    var ox, oy, oz;
    text, number, formula, ox, oy, oz := SetRowOne("Hello", "42", "=A1+B1");
    outs := [ox, oy, oz];
  }
}
