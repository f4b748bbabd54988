/**
 * Spreadsheet.java: cells stored by key, the set of keys under evaluation
 * used to detect circular references, and the index from a referenced key to
 * the keys of the cells whose formulas mention it. Every evaluation method is
 * proved against the functions of the Evaluation module on a snapshot of the
 * cells, and restores the visited set on every path.
 */
module Sheet {
  import opened Wrappers
  import opened Text
  import opened Decimal
  import opened Format
  import opened Errors
  import opened Formula
  import opened Evaluation
  import opened EvaluationFacts
  import opened Dependencies
  import opened SelfReference
  import opened Cells

  /**
   * How deep updateDependentCells may recurse before the call stack
   * overflows; the JVM's limit depends on its configuration, so any bound
   * stands for it.
   */
  const MaxDepth: nat := 1000

  class Spreadsheet {
    var cells: map<string, Cell>
    var visitedCells: set<string>
    var dependencies: Deps

    /** Distinct keys hold distinct Cell objects. */
    predicate Distinct()
      reads this`cells
    {
      forall a, b | a in cells && b in cells && a != b :: cells[a] != cells[b]
    }

    /** The state between two public calls: no cell is under evaluation. */
    predicate Valid()
      reads this`cells, this`visitedCells
    {
      Distinct() && visitedCells == {}
    }

    /** The cells' contents and cached values, as evaluation sees them. */
    function Snapshot(): Store
      reads this`cells, cells.Values
    {
      map k | k in cells :: CellState(cells[k].content, cells[k].evaluated)
    }

    constructor ()
      ensures Valid() && cells == map[] && dependencies == map[]
    {
      cells := map[];
      visitedCells := {};
      dependencies := map[];
    }

    /** Spreadsheet.getCellContent: what a reference to the cell reads. */
    function GetCellContent(column: string, row: int): (s: string)
      reads this`cells, cells.Values
      ensures s == Display(Snapshot(), CreateKey(column, row))
    {
      var key := CreateKey(column, row);
      if key !in cells || cells[key].content == "" then "0"
      else if cells[key].evaluated.Some? then FormatOneDecimal(cells[key].evaluated.value)
      else cells[key].content
    }

    /**
     * Spreadsheet.setCellContent: store the content under column+row (in the
     * cell already there, if any), drop the entry listing the dependents of
     * that key, register the key under each reference its formula mentions,
     * then propagate. The update succeeds exactly when the content does not
     * mention the cell's own key; a successful update caches no value.
     */
    method SetCellContent(column: string, row: int, content: string) returns (out: Outcome<EvalError>)
      requires Valid()
      modifies this, cells.Values
      ensures Valid()
      ensures var key := CreateKey(column, row);
        cells.Keys == old(cells.Keys) + {key}
        && (key in old(cells) ==> cells[key] == old(cells[key]))
        && (key !in old(cells) ==> fresh(cells[key]))
        && (forall k | k in old(cells) && k != key :: cells[k] == old(cells[k]))
      ensures dependencies == Rewire(old(dependencies), CreateKey(column, row), content)
      ensures forall k | k in cells :: cells[k].content == if k == CreateKey(column, row) then content else old(cells[k].content)
      ensures out.Pass? <==> !Mentioned(ScannedTokens(content), CreateKey(column, row))
      ensures var key := CreateKey(column, row);
        (out.Pass? || (IsReference(key) ==> RefKey(key) == key)) ==>
        forall k | k in cells :: cells[k].evaluated == if k in old(cells) then old(cells[k].evaluated) else None
      ensures var key := CreateKey(column, row);
        ((IsReference(key) ==> RefKey(key) == key) && out.Fail?) ==>
        Eval(Snapshot(), content, key, {}).Err? && out == Fail(Eval(Snapshot(), content, key, {}).error)
    {
      var key := CreateKey(column, row);
      PutContent(key, content);
      RewireDependencies(key, content);
      ghost var S1 := Snapshot();
      assert forall k | k in cells :: k in S1 && S1[k].cached == if k in old(cells) then old(cells[k].evaluated) else None;
      OnlySelfDependent(old(dependencies), key, content);
      out := Propagate(key, content);
    }

    /**
     * The call to updateDependentCells that ends setCellContent. The index
     * was just rebuilt, so the cell's only possible dependent is itself: it
     * has one exactly when its formula mentions its own key, and then the
     * update fails.
     */
    method Propagate(key: string, content: string) returns (out: Outcome<EvalError>)
      requires visitedCells == {} && key in cells && cells[key].content == content
      requires Dependents(dependencies, key) == if Mentioned(ScannedTokens(content), key) then {key} else {}
      modifies this`visitedCells, cells.Values
      ensures visitedCells == {} && cells == old(cells) && dependencies == old(dependencies)
      ensures forall k | k in cells :: cells[k].content == old(cells[k].content)
      ensures out.Pass? <==> !Mentioned(ScannedTokens(content), key)
      ensures (out.Pass? || (IsReference(key) ==> RefKey(key) == key)) ==> Snapshot() == old(Snapshot())
      ensures ((IsReference(key) ==> RefKey(key) == key) && out.Fail?) ==>
        Eval(old(Snapshot()), content, key, {}).Err? && out == Fail(Eval(old(Snapshot()), content, key, {}).error)
    {
      if !Mentioned(ScannedTokens(content), key) {
        out := UpdateDependentCells(key, MaxDepth);
      } else {
        assert SelfLoop(key);
        if IsReference(key) ==> RefKey(key) == key {
          SelfReferenceFails(Snapshot(), content, key, {});
        }
        out := UpdateDependentCells(key, MaxDepth);
      }
    }

    /**
     * The part of setCellContent that stores the content: the cell already
     * under `key`, or a new one, gets the content (its cached value stays) and
     * is put under `key`.
     */
    method PutContent(key: string, content: string)
      requires Distinct()
      modifies this`cells, if key in cells then {cells[key]} else {}
      ensures Distinct() && visitedCells == old(visitedCells) && dependencies == old(dependencies)
      ensures cells.Keys == old(cells.Keys) + {key}
      ensures key in old(cells) ==> cells[key] == old(cells[key])
      ensures key !in old(cells) ==> fresh(cells[key])
      ensures forall k | k in old(cells) && k != key :: cells[k] == old(cells[k])
      ensures forall k | k in cells :: cells[k] in old(cells.Values) || fresh(cells[k])
      ensures forall k | k in cells :: cells[k].content == if k == key then content else old(cells[k].content)
      ensures forall k | k in cells :: cells[k].evaluated == if k in old(cells) then old(cells[k].evaluated) else None
    {
      ghost var before := cells;
      assert forall a, b | a in before && b in before && a != b :: before[a] != before[b];
      if key in cells {
        var cell := cells[key];
        cell.SetContent(content);
        cells := cells[key := cell];
        assert cells == before;
      } else {
        var cell := new Cell();
        cell.SetContent(content);
        cells := cells[key := cell];
        assert forall k | k in cells && k != key :: cells[k] == before[k];
      }
    }

    /**
     * The part of setCellContent that maintains the index: remove the entry
     * of `key`, then make `key` a dependent of every token of its formula that
     * is shaped like a reference.
     */
    method RewireDependencies(key: string, content: string)
      modifies this`dependencies
      ensures dependencies == Rewire(old(dependencies), key, content)
      ensures cells == old(cells) && Snapshot() == old(Snapshot())
    {
      dependencies := dependencies - {key};
      if StartsWith(content, "=") {
        var tokens := Tokenize(content[1..], RefDelims);
        for i := 0 to |tokens|
          invariant Register(dependencies, key, tokens[i..]) == Rewire(old(dependencies), key, content)
        {
          assert tokens[i..][0] == tokens[i] && tokens[i..][1..] == tokens[i + 1..];
          if IsReference(tokens[i]) {
            AddDependency(key, tokens[i]);
          }
        }
      }
    }

    /** Spreadsheet.addDependency */
    method AddDependency(dependent: string, dependency: string)
      modifies this`dependencies
      ensures dependencies == AddEdge(old(dependencies), dependent, dependency)
    {
      var entry := if dependency in dependencies then dependencies[dependency] else {};
      dependencies := dependencies[dependency := entry + {dependent}];
    }

    /**
     * Spreadsheet.updateDependentCells: re-evaluate every recorded dependent
     * of `cellKey` that holds a formula, cache its value and recurse into its
     * own dependents. The dependents are visited in no particular order, and
     * `fuel` stands for the call stack: running out of it is a stack overflow.
     */
    method UpdateDependentCells(cellKey: string, fuel: nat) returns (out: Outcome<EvalError>)
      modifies this`visitedCells, cells.Values
      ensures visitedCells == old(visitedCells) && cells == old(cells) && dependencies == old(dependencies)
      ensures forall k | k in cells :: cells[k].content == old(cells[k].content)
      ensures Dependents(dependencies, cellKey) == {} ==> out == Pass && Snapshot() == old(Snapshot())
      ensures SelfLoop(cellKey) ==> out.Fail?
      ensures SelfLoop(cellKey) && cellKey in visitedCells ==>
        out == Fail(CircularReference(cellKey)) && Snapshot() == old(Snapshot())
      ensures (SelfLoop(cellKey) && cellKey !in visitedCells
               && old(Eval(Snapshot(), cells[cellKey].content, cellKey, visitedCells)).Err?) ==>
        out == Fail(old(Eval(Snapshot(), cells[cellKey].content, cellKey, visitedCells)).error) && Snapshot() == old(Snapshot())
      ensures forall k | k in cells :: old(cells[k].evaluated).Some? ==> cells[k].evaluated.Some?
      decreases fuel, 1
    {
      ghost var S := Snapshot();
      if cellKey !in dependencies {
        return Pass;
      }
      var pending := dependencies[cellKey];
      while pending != {}
        invariant pending <= dependencies[cellKey]
        invariant visitedCells == old(visitedCells)
        invariant forall k | k in cells :: cells[k].content == old(cells[k].content)
        invariant SelfLoop(cellKey) ==> pending == {cellKey} && Snapshot() == S
        invariant dependencies[cellKey] == {} ==> Snapshot() == S
        invariant forall k | k in cells :: old(cells[k].evaluated).Some? ==> cells[k].evaluated.Some?
        decreases |pending|
      {
        var dependent :| dependent in pending;
        pending := pending - {dependent};
        out := RefreshDependent(dependent, fuel);
        if out.Fail? {
          return out;
        }
      }
      return Pass;
    }

    /**
     * One pass of updateDependentCells' loop: fail on a dependent under
     * evaluation, else re-evaluate a dependent that holds a formula, cache its
     * value and update its own dependents.
     */
    method RefreshDependent(dependent: string, fuel: nat) returns (out: Outcome<EvalError>)
      modifies this`visitedCells, cells.Values
      ensures visitedCells == old(visitedCells) && cells == old(cells) && dependencies == old(dependencies)
      ensures forall k | k in cells :: cells[k].content == old(cells[k].content)
      ensures dependent in visitedCells ==> out == Fail(CircularReference(dependent)) && Snapshot() == old(Snapshot())
      ensures dependent !in visitedCells && (dependent !in cells || !IsFormula(cells[dependent].content)) ==>
        out == Pass && Snapshot() == old(Snapshot())
      ensures SelfLoop(dependent) ==> out.Fail?
      ensures (dependent in cells && dependent !in visitedCells && IsFormula(cells[dependent].content)
               && old(Eval(Snapshot(), cells[dependent].content, dependent, visitedCells)).Err?) ==>
        out == Fail(old(Eval(Snapshot(), cells[dependent].content, dependent, visitedCells)).error) && Snapshot() == old(Snapshot())
      ensures (dependent in cells && dependent !in visitedCells && IsFormula(cells[dependent].content)
               && old(Eval(Snapshot(), cells[dependent].content, dependent, visitedCells)).Ok?) ==>
        cells[dependent].evaluated.Some?
      ensures forall k | k in cells :: old(cells[k].evaluated).Some? ==> cells[k].evaluated.Some?
      decreases fuel, 0
    {
      if dependent in visitedCells {
        return Fail(CircularReference(dependent));
      }
      if dependent in cells && IsFormula(cells[dependent].content) {
        var cell := cells[dependent];
        var newValue := EvaluateFormula(cell.content, dependent);
        if newValue.Err? {
          return Fail(newValue.error);
        }
        cell.SetEvaluatedValue(newValue.value);
        if fuel == 0 {
          return Fail(StackOverflow);
        }
        out := UpdateDependentCells(dependent, fuel - 1);
      } else {
        out := Pass;
      }
    }

    /** `key` is its own only dependent and holds a formula. */
    predicate SelfLoop(key: string)
      reads this`cells, this`dependencies, cells.Values
    {
      Dependents(dependencies, key) == {key} && key in cells && IsFormula(cells[key].content)
    }

    /**
     * Spreadsheet.evaluateFormula: fail on re-entering a visited key, else
     * evaluate with the key marked, and unmark it on every path.
     */
    method EvaluateFormula(formula: string, currentCell: string) returns (r: Result<real, EvalError>)
      modifies this`visitedCells
      ensures visitedCells == old(visitedCells) && Snapshot() == old(Snapshot())
      ensures r == Eval(Snapshot(), formula, currentCell, visitedCells)
      decreases Rank(Snapshot(), formula, currentCell, visitedCells), 6, 0
    {
      ghost var S := Snapshot();
      ghost var V := visitedCells;
      if currentCell in visitedCells {
        return Err(CircularReference(currentCell));
      }
      visitedCells := visitedCells + {currentCell};
      assert Snapshot() == S;
      assert BodyRank(S, formula, visitedCells) == Rank(S, formula, currentCell, V);
      r := EvaluateBody(formula);
      assert r == EvalBody(S, formula, V + {currentCell});
      visitedCells := visitedCells - {currentCell};
      assert visitedCells == V;
    }

    /** The try block of evaluateFormula. */
    method EvaluateBody(formula: string) returns (r: Result<real, EvalError>)
      modifies this`visitedCells
      ensures visitedCells == old(visitedCells) && Snapshot() == old(Snapshot())
      ensures r == EvalBody(Snapshot(), formula, visitedCells)
      decreases BodyRank(Snapshot(), formula, visitedCells), 5, 0
    {
      if formula == "" {
        return Err(EmptyCell);
      }
      if !StartsWith(formula, "=") {
        var parsed := ParseDecimal(formula);
        if parsed.None? {
          return Err(InvalidValue(formula));
        }
        return Ok(parsed.value);
      }
      var body := formula[1..];
      if StartsWith(body, "MAX(") {
        r := EvaluateFunction(body, Max);
      } else if StartsWith(body, "MIN(") {
        r := EvaluateFunction(body, Min);
      } else if StartsWith(body, "SUM(") {
        r := EvaluateFunction(body, Sum);
      } else if StartsWith(body, "AVERAGE(") {
        r := EvaluateFunction(body, Average);
      } else {
        r := EvaluateArithmetic(body);
      }
    }

    /** One of the MAX, MIN, SUM and AVERAGE branches. */
    method EvaluateFunction(body: string, agg: Aggregate) returns (r: Result<real, EvalError>)
      modifies this`visitedCells
      ensures visitedCells == old(visitedCells) && Snapshot() == old(Snapshot())
      ensures r == EvalFunction(Snapshot(), body, agg, visitedCells)
      decreases Budget(Snapshot(), visitedCells), 4, 0
    {
      var range := ExtractRange(body, Name(agg));
      if range.Err? {
        return Err(range.error);
      }
      var values := ParseMultipleRanges(range.value);
      if values.Err? {
        return Err(values.error);
      }
      r := Combine(agg, values.value);
    }

    /** Spreadsheet.parseMultipleRanges */
    method ParseMultipleRanges(ranges: string) returns (r: Result<seq<real>, EvalError>)
      modifies this`visitedCells
      ensures visitedCells == old(visitedCells) && Snapshot() == old(Snapshot())
      ensures r == EvalArgs(Snapshot(), SplitOn(ranges, ','), visitedCells)
      decreases Budget(Snapshot(), visitedCells), 3, 0
    {
      ghost var S := Snapshot();
      ghost var V := visitedCells;
      var rangeParts := SplitOn(ranges, ',');
      var values: seq<real> := [];
      var i := 0;
      while i < |rangeParts|
        invariant 0 <= i <= |rangeParts|
        invariant visitedCells == V && Snapshot() == S
        invariant EvalArgs(S, rangeParts[..i], V) == Ok(values)
        decreases |rangeParts| - i
      {
        var got := ParseArgument(Trim(rangeParts[i]));
        ArgsStep(S, rangeParts, i, V, values);
        if got.Err? {
          ArgsPrefixError(S, rangeParts, i + 1, V);
          return Err(got.error);
        }
        values := values + got.value;
        i := i + 1;
      }
      assert rangeParts[..i] == rangeParts;
      return Ok(values);
    }

    /** One trimmed argument of parseMultipleRanges: a decimal or a range. */
    method ParseArgument(range: string) returns (r: Result<seq<real>, EvalError>)
      modifies this`visitedCells
      ensures visitedCells == old(visitedCells) && Snapshot() == old(Snapshot())
      ensures r == EvalArg(Snapshot(), range, visitedCells)
      decreases Budget(Snapshot(), visitedCells), 2, 0
    {
      ArgCases(Snapshot(), range, visitedCells);
      if IsDecimalNumeral(range) {
        return Ok([ParseDecimal(range).value]);
      } else if IsRangeText(range) {
        r := ParseRange(range);
      } else {
        return Err(InvalidRange(range));
      }
    }

    /** Spreadsheet.parseRange: column by column, each column top to bottom. */
    method ParseRange(range: string) returns (r: Result<seq<real>, EvalError>)
      requires IsRangeText(range)
      modifies this`visitedCells
      ensures visitedCells == old(visitedCells) && Snapshot() == old(Snapshot())
      ensures r == EvalRange(Snapshot(), range, visitedCells)
      decreases Budget(Snapshot(), visitedCells), 1, 0
    {
      ghost var S := Snapshot();
      ghost var V := visitedCells;
      RangeWalkStart(S, range, V);
      var parts := SplitOn(range, ':');
      var start, end := parts[0], parts[1];
      var startColumn := RemoveDigits(start);
      var startRow := DigitsValue(KeepDigits(start));
      var endColumn := RemoveDigits(end);
      var endRow := DigitsValue(KeepDigits(end));
      r := WalkRange(startColumn[0], endColumn[0], startRow, endRow);
    }

    /**
     * The outer loop of Spreadsheet.parseRange: the columns from c0 to c1,
     * each walked top to bottom.
     */
    method WalkRange(c0: char, c1: char, r0: int, r1: int) returns (r: Result<seq<real>, EvalError>)
      requires c0 <= 'Z' && c1 <= 'Z'
      modifies this`visitedCells
      ensures visitedCells == old(visitedCells) && Snapshot() == old(Snapshot())
      ensures r == EvalCells(Snapshot(), RangeKeys(c0, c1 as int, r0, r1), visitedCells)
      decreases Budget(Snapshot(), visitedCells), 0, 3
    {
      ghost var S := Snapshot();
      ghost var V := visitedCells;
      var values: seq<real> := [];
      var col: int := c0 as int;
      assert RangeKeys(c0, col - 1, r0, r1) == [];
      while col <= c1 as int
        invariant c0 as int <= col <= if c1 < c0 then c0 as int else c1 as int + 1
        invariant visitedCells == V && Snapshot() == S
        invariant EvalCells(S, RangeKeys(c0, col - 1, r0, r1), V) == Ok(values)
        decreases c1 as int - col
      {
        var walked := WalkColumn(c0, c1, col, r0, r1, values);
        if walked.Err? {
          return walked;
        }
        values := walked.value;
        col := col + 1;
      }
      WalkRangeDone(c0, col, c1 as int, r0, r1);
      return Ok(values);
    }

    /**
     * The inner loop of Spreadsheet.parseRange: the rows of one column, top to
     * bottom, appended to the values of the columns before it.
     */
    method WalkColumn(c0: char, c1: char, col: int, r0: int, r1: int, values: seq<real>)
      returns (r: Result<seq<real>, EvalError>)
      requires c0 as int <= col <= c1 as int <= 'Z' as int
      requires EvalCells(Snapshot(), RangeKeys(c0, col - 1, r0, r1), visitedCells) == Ok(values)
      modifies this`visitedCells
      ensures visitedCells == old(visitedCells) && Snapshot() == old(Snapshot())
      ensures r.Ok? ==> EvalCells(Snapshot(), RangeKeys(c0, col, r0, r1), visitedCells) == r
      ensures r.Err? ==> EvalCells(Snapshot(), RangeKeys(c0, c1 as int, r0, r1), visitedCells) == r
      decreases Budget(Snapshot(), visitedCells), 0, 2
    {
      ghost var S := Snapshot();
      ghost var V := visitedCells;
      var row: int := r0;
      var walked := values;
      WalkColumnStart(c0, col, r0, r1);
      while row <= r1
        invariant r0 <= row <= if r1 < r0 then r0 else r1 + 1
        invariant visitedCells == V && Snapshot() == S
        invariant EvalCells(S, Walked(c0, col, r0, row - 1, r1), V) == Ok(walked)
        decreases r1 - row
      {
        var next := WalkCell(c0, c1, col, r0, row, r1, walked);
        if next.Err? {
          return next;
        }
        walked := next.value;
        row := row + 1;
      }
      WalkColumnDone(c0, col, r0, row, r1);
      return Ok(walked);
    }

    /**
     * The body of the row loop: the values walked so far extended by the
     * value of cell (col, row), or the error that fails the whole range.
     */
    method WalkCell(c0: char, c1: char, col: int, r0: int, row: int, r1: int, walked: seq<real>)
      returns (r: Result<seq<real>, EvalError>)
      requires c0 as int <= col <= c1 as int <= 'Z' as int && r0 <= row <= r1
      requires EvalCells(Snapshot(), Walked(c0, col, r0, row - 1, r1), visitedCells) == Ok(walked)
      modifies this`visitedCells
      ensures visitedCells == old(visitedCells) && Snapshot() == old(Snapshot())
      ensures r.Ok? ==> EvalCells(Snapshot(), Walked(c0, col, r0, row, r1), visitedCells) == r
      ensures r.Err? ==> EvalCells(Snapshot(), RangeKeys(c0, c1 as int, r0, r1), visitedCells) == r
      decreases Budget(Snapshot(), visitedCells), 0, 1
    {
      ghost var S := Snapshot();
      ghost var V := visitedCells;
      var evaluated := ReadCell(col, row);
      if KeyAt(col, row) in visitedCells {
        WalkStepCircular(S, c0, c1 as int, col, r0, row, r1, V, walked);
        return Err(evaluated.error);
      }
      if evaluated.Err? {
        WalkStepFails(S, c0, c1 as int, col, r0, row, r1, V, walked);
        return Err(evaluated.error);
      }
      WalkStepValue(S, c0, c1 as int, col, r0, row, r1, V, walked, evaluated.value);
      return Ok(walked + [evaluated.value]);
    }

    /**
     * One cell of the range walk: a cell already under evaluation is a
     * circular reference, any other is evaluated from its displayed content.
     */
    method ReadCell(col: int, row: int) returns (r: Result<real, EvalError>)
      requires 0 <= col <= 'Z' as int
      modifies this`visitedCells
      ensures visitedCells == old(visitedCells) && Snapshot() == old(Snapshot())
      ensures KeyAt(col, row) in visitedCells ==> r == Err(CircularReference(KeyAt(col, row)))
      ensures KeyAt(col, row) !in visitedCells ==>
        r == Eval(Snapshot(), Display(Snapshot(), KeyAt(col, row)), KeyAt(col, row), visitedCells)
      decreases Budget(Snapshot(), visitedCells), 0, 0
    {
      ghost var S := Snapshot();
      var cellKey := CreateKey([col as char], row);
      var content := GetCellContent([col as char], row);
      assert cellKey == KeyAt(col, row) && content == Display(S, cellKey);
      if cellKey in visitedCells {
        return Err(CircularReference(cellKey));
      }
      RankBelow(S, cellKey, visitedCells);
      r := EvaluateFormula(content, cellKey);
    }

    /**
     * The arithmetic part of evaluateFormula: the token loop over an operand
     * stack and an operator stack, then the final loop.
     */
    /** `values.push(applyOperator(operators.pop(), values.pop(), values.pop()))`. */
    method PopApply(values: seq<real>, operators: seq<char>) returns (r: Result<Stacks, EvalError>)
      requires operators != []
      ensures r == ApplyTop(Stacks(values, operators))
    {
      var symbol := operators[|operators| - 1];
      var ops := operators[..|operators| - 1];
      if |values| < 2 {
        return Err(EmptyStack);
      }
      var b := values[|values| - 1];
      var a := values[|values| - 2];
      var applied := ApplyOperator(symbol, b, a);
      if applied.Err? {
        return Err(applied.error);
      }
      return Ok(Stacks(values[..|values| - 2] + [applied.value], ops));
    }

    method EvaluateArithmetic(body: string) returns (r: Result<real, EvalError>)
      modifies this`visitedCells
      ensures visitedCells == old(visitedCells) && Snapshot() == old(Snapshot())
      ensures r == RunTokens(Snapshot(), Tokenize(body, ArithDelims), visitedCells, Empty)
      decreases Budget(Snapshot(), visitedCells), 2, 0
    {
      ghost var S := Snapshot();
      ghost var V := visitedCells;
      var tokens := Tokenize(body, ArithDelims);
      var values: seq<real> := [];
      var operators: seq<char> := [];
      var i := 0;
      while i < |tokens|
        invariant 0 <= i <= |tokens|
        invariant visitedCells == V && Snapshot() == S
        invariant RunTokens(S, tokens[i..], V, Stacks(values, operators)) == RunTokens(S, tokens, V, Empty)
        decreases |tokens| - i
      {
        var token := tokens[i];
        assert tokens[i..][0] == token && tokens[i..][1..] == tokens[i + 1..];
        if AllDigits(token) {
          values := values + [DigitsValue(token) as real];
        } else if IsOperatorToken(token) {
          var op := token[0];
          var reduced := ReduceFor(op, values, operators);
          if reduced.Err? {
            return Err(reduced.error);
          }
          values, operators := reduced.value.values, reduced.value.ops + [op];
        } else if IsReference(token) {
          var refColumn := RemoveDigits(token);
          var refRow := DigitsValue(KeepDigits(token));
          var cellContent := GetCellContent(refColumn, refRow);
          RankBelow(S, CreateKey(refColumn, refRow), V);
          var evaluated := EvaluateFormula(cellContent, CreateKey(refColumn, refRow));
          assert Snapshot() == S;
          if evaluated.Err? {
            return Err(evaluated.error);
          }
          values := values + [evaluated.value];
        } else {
          return Err(InvalidToken(token));
        }
        i := i + 1;
      }
      r := FinishStacks(values, operators);
    }

    /** The inner while loop: apply operators of at least `op`'s precedence. */
    method ReduceFor(op: char, values: seq<real>, operators: seq<char>) returns (r: Result<Stacks, EvalError>)
      ensures r == Reduce(Stacks(values, operators), op)
    {
      var vs, os := values, operators;
      while os != [] && Precedence(op) <= Precedence(os[|os| - 1])
        invariant Reduce(Stacks(vs, os), op) == Reduce(Stacks(values, operators), op)
        decreases |os|
      {
        var next := PopApply(vs, os);
        if next.Err? {
          return Err(next.error);
        }
        vs, os := next.value.values, next.value.ops;
      }
      return Ok(Stacks(vs, os));
    }

    /** The final while loop and `values.pop()`. */
    method FinishStacks(values: seq<real>, operators: seq<char>) returns (r: Result<real, EvalError>)
      ensures r == Finish(Stacks(values, operators))
    {
      var vs, os := values, operators;
      while os != []
        invariant Finish(Stacks(vs, os)) == Finish(Stacks(values, operators))
        decreases |os|
      {
        var next := PopApply(vs, os);
        if next.Err? {
          return Err(next.error);
        }
        vs, os := next.value.values, next.value.ops;
      }
      if vs == [] {
        return Err(EmptyStack);
      }
      return Ok(vs[|vs| - 1]);
    }
  }
}
