/**
 * Cell.java: a mutable holder of a cell's content, together with the cached
 * value that Spreadsheet reads and writes through getEvaluatedValue and
 * setEvaluatedValue.
 */
module Cells {
  import opened Wrappers

  class Cell {
    /** The text entered for the cell: a number, a formula starting with "=", or anything else. */
    var content: string
    /** The value last computed for the cell by dependency propagation, if any. */
    var evaluated: Option<real>

    /** A new cell is empty and has no cached value. */
    constructor ()
      ensures content == "" && evaluated == None
    {
      content := "";
      evaluated := None;
    }

    /** Replaces the content; the cached value is left as it was. */
    method SetContent(s: string)
      modifies this`content
      ensures content == s
    {
      content := s;
    }

    method GetContent() returns (s: string)
      ensures s == content
    {
      s := content;
    }

    /** The printed form of a cell is exactly its content. */
    function ToString(): (s: string)
      reads this`content
      ensures s == content
    {
      content
    }

    method SetEvaluatedValue(v: real)
      modifies this`evaluated
      ensures evaluated == Some(v)
    {
      evaluated := Some(v);
    }

    method GetEvaluatedValue() returns (v: Option<real>)
      ensures v == evaluated
    {
      v := evaluated;
    }
  }

  /** Content written with setContent is what getContent returns, and the cached value survives. */
  method ContentRoundTrip(c: Cell, s: string) returns (got: string)
    modifies c`content
    ensures got == s && c.evaluated == old(c.evaluated)
  {
    c.SetContent(s);
    got := c.GetContent();
  }
}
