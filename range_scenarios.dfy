/**
 * The function and range scenarios of SpreadsheetTest.java: SUM, MAX and
 * AVERAGE over the square A1:B2 of number cells.
 */
module RangeScenarios {
  import opened Wrappers
  import opened Text
  import opened Decimal
  import opened Errors
  import opened Formula
  import opened Evaluation
  import opened EvaluationFacts
  import opened Scenarios

  /** A cell holding a digit string and no cached value. */
  predicate HoldsNumber(store: Store, k: string) {
    k in store && store[k].cached == None && AllDigits(store[k].content)
  }

  function NumberIn(store: Store, k: string): real
    requires HoldsNumber(store, k)
  {
    DigitsValue(store[k].content) as real
  }

  /** Such a cell evaluates to its number. */
  lemma {:induction false} CellNumber(store: Store, k: string, W: set<string>)
    requires HoldsNumber(store, k) && k !in W
    ensures Eval(store, Display(store, k), k, W) == Ok(NumberIn(store, k))
  {
    DigitsContent(store, store[k].content, k, W);
  }

  /** The square A1:B2 is walked column by column: A1, A2, B1, B2. */
  lemma {:induction false} SquareKeys()
    ensures RangeKeys('A', 'B' as int, 1, 2) == ["A1", "A2", "B1", "B2"]
  {
    KeyName('A', 1);
    KeyName('A', 2);
    KeyName('B', 1);
    KeyName('B', 2);
    assert DigitChar(1) == '1' && DigitChar(2) == '2';
    assert ColumnKeys('A', 1, 2) == ["A1", "A2"];
    assert ColumnKeys('B', 1, 2) == ["B1", "B2"];
    assert RangeKeys('A', 'A' as int - 1, 1, 2) == [];
    assert RangeKeys('A', 'A' as int, 1, 2) == ["A1", "A2"];
  }

  /** A number cell appended to a list of cells appends its number to their values. */
  lemma {:induction false} AppendNumber(store: Store, W: set<string>, keys: seq<string>, vs: seq<real>, k: string)
    requires EvalCells(store, keys, W) == Ok(vs)
    requires HoldsNumber(store, k) && k !in W
    ensures EvalCells(store, keys + [k], W) == Ok(vs + [NumberIn(store, k)])
  {
    CellNumber(store, k, W);
    CellsStepValue(store, keys, k, W, vs, NumberIn(store, k));
  }

  /** Two more number cells append their two numbers, in order. */
  lemma {:induction false} AppendTwoNumbers(store: Store, W: set<string>, keys: seq<string>, vs: seq<real>, a: string, b: string)
    requires EvalCells(store, keys, W) == Ok(vs)
    requires HoldsNumber(store, a) && HoldsNumber(store, b) && a !in W && b !in W
    ensures EvalCells(store, keys + [a, b], W) == Ok(vs + [NumberIn(store, a), NumberIn(store, b)])
  {
    var na, nb := NumberIn(store, a), NumberIn(store, b);
    AppendNumber(store, W, keys, vs, a);
    AppendNumber(store, W, keys + [a], vs + [na], b);
    assert keys + [a] + [b] == keys + [a, b];
    assert vs + [na] + [nb] == vs + [na, nb];
  }

  /** Four cells that each hold a number read as those four numbers, in order. */
  lemma {:induction false} FourCells(store: Store, W: set<string>, k0: string, k1: string, k2: string, k3: string)
    requires HoldsNumber(store, k0) && HoldsNumber(store, k1) && HoldsNumber(store, k2) && HoldsNumber(store, k3)
    requires k0 !in W && k1 !in W && k2 !in W && k3 !in W
    ensures EvalCells(store, [k0, k1, k2, k3], W) ==
      Ok([NumberIn(store, k0), NumberIn(store, k1), NumberIn(store, k2), NumberIn(store, k3)])
  {
    var n0, n1, n2, n3 := NumberIn(store, k0), NumberIn(store, k1), NumberIn(store, k2), NumberIn(store, k3);
    var e: seq<string>, none: seq<real> := [], [];
    assert EvalCells(store, e, W) == Ok(none);
    AppendTwoNumbers(store, W, e, none, k0, k1);
    assert e + [k0, k1] == [k0, k1] && none + [n0, n1] == [n0, n1];
    AppendTwoNumbers(store, W, [k0, k1], [n0, n1], k2, k3);
    assert [k0, k1] + [k2, k3] == [k0, k1, k2, k3] && [n0, n1] + [n2, n3] == [n0, n1, n2, n3];
  }

  /** "A1:B2" is range text, not a numeral, and its corners are A1 and B2. */
  lemma {:induction false} SquareText()
    ensures IsRangeText("A1:B2") && !IsDecimalNumeral("A1:B2")
    ensures SplitOn("A1:B2", ':') == ["A1", "B2"]
  {
    KeyName('A', 1);
    KeyName('B', 2);
    assert DigitChar(1) == '1' && DigitChar(2) == '2';
    assert "A1:B2" == "A1" + ":" + "B2";
    JoinedCorners("A1", "B2");
  }

  /** Two references joined by a colon are range text, not a numeral, and split back into the two. */
  lemma {:induction false} JoinedCorners(a: string, b: string)
    requires IsReference(a) && IsReference(b)
    ensures var p := a + ":" + b;
      IsRangeText(p) && !IsDecimalNumeral(p) && SplitOn(p, ':') == [a, b]
  {
    var p := a + ":" + b;
    ReferenceHasNoColon(a);
    ReferenceHasNoColon(b);
    assert p[..|a|] == a && p[|a| + 1..] == b;
    assert p[|a|] == ':';
    assert forall k | 0 <= k < |a| :: p[k] == a[k];
    assert IndexOfAny(p, {':'}) == |a|;
    assert IsUpper(p[0]);
    assert !IsDecimalNumeral(p) by {
      assert !IsDigit(p[|a|]);
      var dot := IndexOfAny(p, {'.'});
      if dot >= 0 {
        assert dot > 0 && p[..dot][0] == p[0];
      }
    }
    SplitOnTwo(a, b, ':');
  }

  /** "A1:B2" holds no comma and no white space at its ends. */
  lemma {:induction false} SquareArgumentShape()
    ensures ',' !in "A1:B2" && !IsSpace("A1:B2"[0]) && !IsSpace("A1:B2"[4])
  {
    var p := "A1:B2";
    assert forall i | 0 <= i < |p| :: p[i] != ',';
  }

  /** The corner A1 is column A, row 1; the corner B2 is column B, row 2. */
  lemma {:induction false} SquareCorners()
    ensures IsReference("A1") && IsReference("B2")
    ensures CornerColumn("A1") == 'A' && CornerRow("A1") == 1
    ensures CornerColumn("B2") == 'B' && CornerRow("B2") == 2
  {
    KeyName('A', 1);
    KeyName('B', 2);
    assert DigitChar(1) == '1' && DigitChar(2) == '2';
    ReferenceParts("A1");
    ReferenceParts("B2");
    assert "A1"[..1] == "A" && "A1"[1..] == "1" && "B2"[..1] == "B" && "B2"[1..] == "2";
    assert DigitsValue("1") == 1 && DigitsValue("2") == 2 by {
      assert "1"[..0] == [] && "2"[..0] == [];
    }
  }

  /** A range argument reads the cells between its corners. */
  lemma {:induction false} RangeArgument(store: Store, W: set<string>, p: string, a: string, b: string)
    requires IsRangeText(p) && !IsDecimalNumeral(p) && SplitOn(p, ':') == [a, b]
    requires IsReference(a) && IsReference(b)
    ensures EvalArg(store, p, W) == EvalCells(store, RangeKeys(CornerColumn(a), CornerColumn(b) as int, CornerRow(a), CornerRow(b)), W)
  {
  }

  /** The argument "A1:B2" reads A1, A2, B1 and B2, in that order. */
  lemma {:induction false} SquareArgument(store: Store, W: set<string>)
    ensures EvalArg(store, "A1:B2", W) == EvalCells(store, ["A1", "A2", "B1", "B2"], W)
  {
    SquareText();
    SquareCorners();
    RangeArgument(store, W, "A1:B2", "A1", "B2");
    SquareKeys();
  }

  /** A call text starts with exactly one of the four function names. */
  lemma {:induction false} Dispatch(agg: Aggregate, inner: string)
    ensures var body := Name(agg) + "(" + inner + ")";
      (StartsWith(body, "MAX(") <==> agg == Max) && (StartsWith(body, "MIN(") <==> agg == Min) &&
      (StartsWith(body, "SUM(") <==> agg == Sum) && (StartsWith(body, "AVERAGE(") <==> agg == Average)
  {
    var body := Name(agg) + "(" + inner + ")";
    assert body[..|Name(agg)| + 1] == Name(agg) + "(";
    assert body[0] == Name(agg)[0] && body[1] == Name(agg)[1];
    if StartsWith(body, "MAX(") { assert body[0] == 'M' && body[1] == 'A'; }
    if StartsWith(body, "MIN(") { assert body[0] == 'M' && body[1] == 'I'; }
    if StartsWith(body, "SUM(") { assert body[0] == 'S'; }
    if StartsWith(body, "AVERAGE(") { assert body[0] == 'A'; }
  }

  /** A formula `=NAME(...)` runs that function over its visited set. */
  lemma {:induction false} CallDispatch(store: Store, agg: Aggregate, inner: string, W: set<string>)
    ensures var body := Name(agg) + "(" + inner + ")";
      EvalBody(store, "=" + body, W) == EvalFunction(store, body, agg, W)
  {
    var body := Name(agg) + "(" + inner + ")";
    assert ("=" + body)[1..] == body;
    assert IsFormula("=" + body);
    Dispatch(agg, inner);
  }

  /** A one-part argument list is the values of that part, trimmed. */
  lemma {:induction false} OnePart(store: Store, p: string, W: set<string>)
    ensures EvalArgs(store, [p], W) == EvalArg(store, Trim(p), W)
  {
    var parts := [p];
    assert parts[..0] == [];
    assert EvalArgs(store, parts[..0], W) == Ok([]);
    var r := EvalArg(store, Trim(p), W);
    if r.Ok? {
      var none: seq<real> := [];
      assert none + r.value == r.value;
    }
  }

  /** A function whose argument text is `args` aggregates the values of its comma-separated parts. */
  lemma {:induction false} FunctionOfArgs(store: Store, body: string, agg: Aggregate, args: string, W: set<string>)
    requires ExtractRange(body, Name(agg)) == Ok(args)
    ensures var r := EvalArgs(store, SplitOn(args, ','), W);
      EvalFunction(store, body, agg, W) == if r.Err? then Err(r.error) else Combine(agg, r.value)
  {
  }

  /**
   * A function over one argument, free of commas and of surrounding white
   * space: the aggregate of that argument's values.
   */
  lemma {:induction false} SingleArgument(store: Store, agg: Aggregate, arg: string, W: set<string>)
    requires ',' !in arg
    requires arg == [] || (!IsSpace(arg[0]) && !IsSpace(arg[|arg| - 1]))
    ensures var r := EvalArg(store, arg, W);
      EvalFunction(store, Name(agg) + "(" + arg + ")", agg, W) == if r.Err? then Err(r.error) else Combine(agg, r.value)
  {
    var body := Name(agg) + "(" + arg + ")";
    ExtractRangeOfCall(Name(agg), arg);
    TrimNoop(arg);
    FunctionOfArgs(store, body, agg, arg, W);
    WholeWhenUnseparated(arg, ',');
    OnePart(store, arg, W);
    var r := EvalArg(store, arg, W);
    assert EvalArgs(store, SplitOn(arg, ','), W) == r;
  }

  lemma {:induction false} WholeWhenUnseparated(s: string, sep: char)
    requires sep !in s
    ensures SplitOn(s, sep) == [s]
  {
  }

  /** `=NAME(A1:B2)` over four number cells: the aggregate of A1, A2, B1, B2. */
  lemma {:induction false} SquareCall(store: Store, agg: Aggregate, cur: string, V: set<string>)
    requires cur !in V
    requires HoldsNumber(store, "A1") && HoldsNumber(store, "A2") && HoldsNumber(store, "B1") && HoldsNumber(store, "B2")
    requires "A1" !in V + {cur} && "A2" !in V + {cur} && "B1" !in V + {cur} && "B2" !in V + {cur}
    ensures Eval(store, "=" + (Name(agg) + "(" + "A1:B2" + ")"), cur, V) ==
      Combine(agg, [NumberIn(store, "A1"), NumberIn(store, "A2"), NumberIn(store, "B1"), NumberIn(store, "B2")])
  {
    var W := V + {cur};
    CallDispatch(store, agg, "A1:B2", W);
    SquareArgumentShape();
    SingleArgument(store, agg, "A1:B2", W);
    SquareArgument(store, W);
    FourCells(store, W, "A1", "A2", "B1", "B2");
  }

  /** A cell holding a one- or two-digit numeral and no cached value. */
  lemma {:induction false} SmallNumberCell(store: Store, k: string, n: nat)
    requires n < 100 && k in store
    requires store[k] == CellState(if n < 10 then [DigitChar(n)] else [DigitChar(n / 10), DigitChar(n % 10)], None)
    ensures HoldsNumber(store, k) && NumberIn(store, k) == n as real
  {
    if n < 10 {
      var t := [DigitChar(n)];
      assert t[..0] == [] && OnlyDigits(t);
      assert DigitsValue(t) == 10 * DigitsValue(t[..0]) + DigitValue(t[0]);
    } else {
      TwoDigits(DigitChar(n / 10), DigitChar(n % 10));
    }
  }

  /** A1 = 10, B1 = 20, A2 = 30, B2 = 40: SUM is 100, MAX is 40, AVERAGE is 25. */
  lemma {:induction false} FunctionsOverSquare(store: Store, cur: string, V: set<string>)
    requires cur !in V
    requires "A1" !in V + {cur} && "A2" !in V + {cur} && "B1" !in V + {cur} && "B2" !in V + {cur}
    requires "A1" in store && store["A1"] == CellState("10", None)
    requires "B1" in store && store["B1"] == CellState("20", None)
    requires "A2" in store && store["A2"] == CellState("30", None)
    requires "B2" in store && store["B2"] == CellState("40", None)
    ensures Eval(store, "=SUM(A1:B2)", cur, V) == Ok(100.0)
    ensures Eval(store, "=MAX(A1:B2)", cur, V) == Ok(40.0)
    ensures Eval(store, "=AVERAGE(A1:B2)", cur, V) == Ok(25.0)
  {
    assert DigitChar(1) == '1' && DigitChar(2) == '2' && DigitChar(3) == '3' && DigitChar(4) == '4' && DigitChar(0) == '0';
    SmallNumberCell(store, "A1", 10);
    SmallNumberCell(store, "B1", 20);
    SmallNumberCell(store, "A2", 30);
    SmallNumberCell(store, "B2", 40);
    var vs := [10.0, 30.0, 20.0, 40.0];
    SquareCall(store, Sum, cur, V);
    SquareCall(store, Max, cur, V);
    SquareCall(store, Average, cur, V);
    CallTexts();
    SquareAggregates(vs);
  }

  lemma {:induction false} CallTexts()
    ensures "=" + (Name(Sum) + "(" + "A1:B2" + ")") == "=SUM(A1:B2)"
    ensures "=" + (Name(Max) + "(" + "A1:B2" + ")") == "=MAX(A1:B2)"
    ensures "=" + (Name(Average) + "(" + "A1:B2" + ")") == "=AVERAGE(A1:B2)"
  {
  }

  /** The sum of four values, added left to right. */
  lemma {:induction false} SumOfFour(a: real, b: real, c: real, d: real)
    ensures SumOf([a, b, c, d]) == a + b + c + d
  {
    var vs := [a, b, c, d];
    assert vs[..3] == [a, b, c] && vs[..3][..2] == [a, b] && vs[..3][..2][..1] == [a];
    assert [a][..0] == [];
    assert SumOf([a]) == a;
    assert SumOf([a, b]) == a + b;
    assert SumOf([a, b, c]) == a + b + c;
  }

  lemma {:induction false} SquareAggregates(vs: seq<real>)
    requires vs == [10.0, 30.0, 20.0, 40.0]
    ensures Combine(Sum, vs) == Ok(100.0) && Combine(Max, vs) == Ok(40.0) && Combine(Average, vs) == Ok(25.0)
  {
    SumOfFour(10.0, 30.0, 20.0, 40.0);
    var m := MaxOf(vs);
    assert m in vs && vs[3] <= m;
  }

  /** A1 = 5, A2 = 15, B1 = 10, B2 = 20: SUM(A1:B2) is 50. */
  lemma {:induction false} SumOverSquare(store: Store, cur: string, V: set<string>)
    requires cur !in V
    requires "A1" !in V + {cur} && "A2" !in V + {cur} && "B1" !in V + {cur} && "B2" !in V + {cur}
    requires "A1" in store && store["A1"] == CellState("5", None)
    requires "A2" in store && store["A2"] == CellState("15", None)
    requires "B1" in store && store["B1"] == CellState("10", None)
    requires "B2" in store && store["B2"] == CellState("20", None)
    ensures Eval(store, "=SUM(A1:B2)", cur, V) == Ok(50.0)
  {
    assert DigitChar(1) == '1' && DigitChar(2) == '2' && DigitChar(5) == '5' && DigitChar(0) == '0';
    SmallNumberCell(store, "A1", 5);
    SmallNumberCell(store, "A2", 15);
    SmallNumberCell(store, "B1", 10);
    SmallNumberCell(store, "B2", 20);
    SquareCall(store, Sum, cur, V);
    CallTexts();
    SumOfFour(5.0, 15.0, 10.0, 20.0);
  }
}
