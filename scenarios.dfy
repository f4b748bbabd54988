/**
 * The scenarios of SpreadsheetTest.java, and the precedence example of
 * subtraction, evaluated on concrete stores.
 */
module Scenarios {
  import opened Wrappers
  import opened Text
  import opened Errors
  import opened Formula
  import opened Grouping
  import opened Evaluation
  import opened EvaluationFacts
  import SelfReference

  lemma {:induction false} SubtractionTokens()
    ensures Tokenize("10-5-2", ArithDelims) == ["10", "-", "5", "-", "2"]
  {
    var ts := ["10", "-", "5", "-", "2"];
    assert Concat(ts) == "10-5-2";
    SplitOfPieces(ts, ArithDelims);
  }

  lemma {:induction false} SubtractionItems(store: Store, V: set<string>)
    ensures var ts := ["10", "-", "5", "-", "2"];
      forall j | 0 <= j < |ts| :: TokenItem(store, ts[j], V) == Ok(Interleave([10.0, 5.0, 2.0], ['-', '-'])[j])
  {
    assert Interleave([10.0, 5.0, 2.0], ['-', '-']) == [Num(10.0), Op('-'), Num(5.0), Op('-'), Num(2.0)];
    assert DigitsValue("10") == 10 by { assert "10"[..1] == "1"; }
  }

  lemma {:induction false} SubtractionValue()
    ensures IsChain([10.0, 5.0, 2.0], ['-', '-']) && Expr([10.0, 5.0, 2.0], ['-', '-']) == Ok(3.0)
  {
  }

  /** An arithmetic formula runs its tokens with the current key marked. */
  lemma {:induction false} ArithmeticEval(store: Store, body: string, cur: string, V: set<string>)
    requires cur !in V && body != []
    requires !StartsWith(body, "MAX(") && !StartsWith(body, "MIN(") && !StartsWith(body, "SUM(") && !StartsWith(body, "AVERAGE(")
    ensures Eval(store, "=" + body, cur, V) == RunTokens(store, Split(body, ArithDelims), V + {cur}, Empty)
  {
    assert ("=" + body)[1..] == body;
  }

  /** A body whose first two letters start no function name is arithmetic. */
  lemma {:induction false} NoFunctionName(body: string)
    requires |body| >= 2 && body[..2] !in {"MA", "MI", "SU", "AV"}
    ensures !StartsWith(body, "MAX(") && !StartsWith(body, "MIN(")
    ensures !StartsWith(body, "SUM(") && !StartsWith(body, "AVERAGE(")
  {
    assert "MAX("[..2] == "MA" && "MIN("[..2] == "MI";
    assert "SUM("[..2] == "SU" && "AVERAGE("[..2] == "AV";
    TwoLetters(body, "MAX(");
    TwoLetters(body, "MIN(");
    TwoLetters(body, "SUM(");
    TwoLetters(body, "AVERAGE(");
  }

  lemma {:induction false} TwoLetters(body: string, name: string)
    requires |body| >= 2 && |name| >= 2
    ensures StartsWith(body, name) ==> body[..2] == name[..2]
  {
    if StartsWith(body, name) {
      assert body[..2] == body[..|name|][..2];
    }
  }

  /** Subtraction groups from the left: 10-5-2 is (10-5)-2. */
  lemma {:induction false} LeftAssociative(store: Store, cur: string, V: set<string>)
    requires cur !in V
    ensures Eval(store, "=10-5-2", cur, V) == Ok(3.0)
  {
    assert "=10-5-2" == "=" + "10-5-2";
    assert "10-5-2"[..2] == "10";
    NoFunctionName("10-5-2");
    ArithmeticEval(store, "10-5-2", cur, V);
    SubtractionTokens();
    SubtractionItems(store, V + {cur});
    SubtractionValue();
    FormulaFollowsPrecedence(store, ["10", "-", "5", "-", "2"], V + {cur}, [10.0, 5.0, 2.0], ['-', '-']);
  }

  /** A column letter and a one-digit row make a key that names itself. */
  lemma {:induction false} KeyName(c: char, d: nat)
    requires 'A' <= c <= 'Z' && d < 10
    ensures CreateKey([c], d) == [c, DigitChar(d)]
    ensures IsReference([c, DigitChar(d)]) && RefKey([c, DigitChar(d)]) == [c, DigitChar(d)]
  {
    SelfNaming([c], d);
  }

  /** A1 holding "10" and B1 holding "20" read as 10 and 20. */
  lemma {:induction false} TwoCells(store: Store, W: set<string>)
    requires "A1" !in W && "B1" !in W
    requires "A1" in store && store["A1"] == CellState("10", None)
    requires "B1" in store && store["B1"] == CellState("20", None)
    ensures TokenItem(store, "A1", W) == Ok(Num(10.0)) && TokenItem(store, "B1", W) == Ok(Num(20.0))
  {
    RowOneReferences();
    TenAndTwenty();
    NumberReference(store, "A1", W);
    NumberReference(store, "B1", W);
  }

  /** A1 and B1 are references that name themselves. */
  lemma {:induction false} RowOneReferences()
    ensures IsReference("A1") && RefKey("A1") == "A1" && IsReference("B1") && RefKey("B1") == "B1"
  {
    ShortKey('A', '1');
    ShortKey('B', '1');
  }

  /** The numerals 10 and 20. */
  lemma {:induction false} TenAndTwenty()
    ensures AllDigits("10") && DigitsValue("10") == 10 && AllDigits("20") && DigitsValue("20") == 20
  {
    TwoDigits('1', '0');
    TwoDigits('2', '0');
  }

  /** "A1 op B1" cuts into the two references and the operator. */
  lemma {:induction false} BinaryTokens(op: char)
    requires op in ArithDelims
    ensures Split("A1" + [op] + "B1", ArithDelims) == ["A1", [op], "B1"]
  {
    var ts := ["A1", [op], "B1"];
    assert Concat(ts[2..]) == "B1" by { assert ts[2..][1..] == []; }
    assert Concat(ts[1..]) == [op] + "B1" by { assert ts[1..][1..] == ts[2..]; }
    assert Concat(ts) == "A1" + [op] + "B1";
    SplitOfPieces(ts, ArithDelims);
  }

  /** Two operands around one operator alternate as number, operator, number. */
  lemma {:induction false} BinaryChain(op: char)
    requires op in ArithDelims
    ensures IsChain([10.0, 20.0], [op])
    ensures Interleave([10.0, 20.0], [op]) == [Num(10.0), Op(op), Num(20.0)]
  {
    var vs, os := [10.0, 20.0], [op];
    assert Pairs(vs, os, 0) == [Op(op), Num(20.0)] + Pairs(vs, os, 1);
  }

  /** A one-character operator token classifies as that operator. */
  lemma {:induction false} OperatorItem(store: Store, W: set<string>, op: char)
    requires op in ArithDelims
    ensures TokenItem(store, [op], W) == Ok(Op(op))
  {
    assert !IsDigit(op) && IsOperatorToken([op]);
  }

  lemma {:induction false} BinaryItems(store: Store, W: set<string>, op: char)
    requires "A1" !in W && "B1" !in W
    requires "A1" in store && store["A1"] == CellState("10", None)
    requires "B1" in store && store["B1"] == CellState("20", None)
    requires op in ArithDelims
    ensures var ts := ["A1", [op], "B1"];
      forall j | 0 <= j < |ts| :: TokenItem(store, ts[j], W) == Ok(Interleave([10.0, 20.0], [op])[j])
  {
    TwoCells(store, W);
    OperatorItem(store, W, op);
    BinaryChain(op);
  }

  /** "=A1 op B1" with A1 = 10 and B1 = 20. */
  lemma {:induction false} BinaryFormula(store: Store, cur: string, V: set<string>, op: char)
    requires cur !in V && "A1" !in V + {cur} && "B1" !in V + {cur}
    requires "A1" in store && store["A1"] == CellState("10", None)
    requires "B1" in store && store["B1"] == CellState("20", None)
    requires op in ArithDelims
    ensures Eval(store, "=" + ("A1" + [op] + "B1"), cur, V) == Expr([10.0, 20.0], [op])
  {
    var body := "A1" + [op] + "B1";
    assert body[..2] == "A1";
    NoFunctionName(body);
    ArithmeticEval(store, body, cur, V);
    BinaryTokens(op);
    BinaryItems(store, V + {cur}, op);
    BinaryChain(op);
    FormulaFollowsPrecedence(store, ["A1", [op], "B1"], V + {cur}, [10.0, 20.0], [op]);
  }

  /** A1 = 10 and B1 = 20: A1+B1 is 30 and A1*B1 is 200. */
  lemma {:induction false} SumAndProduct(store: Store, cur: string, V: set<string>)
    requires cur !in V && "A1" !in V + {cur} && "B1" !in V + {cur}
    requires "A1" in store && store["A1"] == CellState("10", None)
    requires "B1" in store && store["B1"] == CellState("20", None)
    ensures Eval(store, "=A1+B1", cur, V) == Ok(30.0)
    ensures Eval(store, "=A1*B1", cur, V) == Ok(200.0)
  {
    BinaryFormula(store, cur, V, '+');
    assert "=" + ("A1" + ['+'] + "B1") == "=A1+B1";
    BinaryFormula(store, cur, V, '*');
    assert "=" + ("A1" + ['*'] + "B1") == "=A1*B1";
  }

  /** A two-digit numeral and its value. */
  lemma {:induction false} TwoDigits(a: char, b: char)
    requires IsDigit(a) && IsDigit(b)
    ensures AllDigits([a, b]) && DigitsValue([a, b]) == 10 * DigitValue(a) + DigitValue(b)
  {
    assert [a, b][..1] == [a] && [a][..0] == [];
    assert DigitsValue([a]) == DigitValue(a);
    assert forall i | 0 <= i < 2 :: IsDigit([a, b][i]);
  }

  /** A formula that is one bare reference is the value of that reference. */
  lemma {:induction false} SingleReference(store: Store, t: string, cur: string, V: set<string>)
    requires cur !in V && IsReference(t) && |t| >= 2 && t[..2] !in {"MA", "MI", "SU", "AV"}
    ensures var r := TokenItem(store, t, V + {cur});
      Eval(store, "=" + t, cur, V) == if r.Err? then Err(r.error) else Ok(r.value.value)
  {
    NoFunctionName(t);
    ArithmeticEval(store, t, cur, V);
    ReferenceIsPiece(t);
    PieceSplit(t, ArithDelims);
    ReferenceIsNoNumber(t);
    var W := V + {cur};
    var r := TokenItem(store, t, W);
    if r.Ok? {
      var st := Stacks([r.value.value], []);
      LoneNumber(r.value.value);
      assert [t][1..] == [];
      assert RunTokens(store, [t], W, Empty) == Finish(st);
    }
  }

  /** A reference holds no operator, so the arithmetic split leaves it whole. */
  lemma {:induction false} ReferenceIsPiece(t: string)
    requires IsReference(t)
    ensures IsPiece(t, ArithDelims)
  {
    forall i | 0 <= i < |t| ensures t[i] !in ArithDelims {
      SelfReference.ReferenceChars(t, i);
    }
  }

  /** A lone number is pushed and popped back. */
  lemma {:induction false} LoneNumber(v: real)
    ensures Step(Num(v), Empty) == Ok(Stacks([v], [])) && Finish(Stacks([v], [])) == Ok(v)
  {
    var none: seq<real> := [];
    assert none + [v] == [v];
  }

  /** A one-letter, one-digit key such as A1 as a formula token. */
  lemma {:induction false} ShortKey(c: char, d: char)
    requires 'A' <= c <= 'Z' && '1' <= d <= '9'
    ensures IsReference([c, d]) && RefKey([c, d]) == [c, d]
    ensures [c, d][..2] !in {"MA", "MI", "SU", "AV"}
  {
    var n := DigitValue(d);
    KeyName(c, n);
    assert DigitChar(n) == d;
    assert [c, d][..2] == [c, d];
  }

  /**
   * Evaluating `=K` as cell K, for a key K, is a circular reference whatever
   * the cells hold: the reference re-enters K before anything else is read.
   */
  lemma {:induction false} SelfEntry(store: Store, c: char, d: char, V: set<string>)
    requires 'A' <= c <= 'Z' && '1' <= d <= '9' && [c, d] !in V
    ensures Eval(store, "=" + [c, d], [c, d], V) == Err(CircularReference([c, d]))
  {
    var k := [c, d];
    ShortKey(c, d);
    SingleReference(store, k, k, V);
    ReferenceToVisited(store, k, V + {k});
  }

  /**
   * A1 holding "=B1" and B1 holding "=A1": evaluating "=A1" as A1 and "=B1"
   * as B1 both fail as circular references.
   */
  lemma {:induction false} CircularPair(store: Store, V: set<string>)
    requires "A1" !in V && "B1" !in V
    requires "A1" in store && store["A1"] == CellState("=B1", None)
    requires "B1" in store && store["B1"] == CellState("=A1", None)
    ensures Eval(store, "=A1", "A1", V) == Err(CircularReference("A1"))
    ensures Eval(store, "=B1", "B1", V) == Err(CircularReference("B1"))
  {
    SelfEntry(store, 'A', '1', V);
    assert "=" + ['A', '1'] == "=A1";
    SelfEntry(store, 'B', '1', V);
    assert "=" + ['B', '1'] == "=B1";
  }

  /**
   * The same pair, each cell evaluated from its own content: A1's formula
   * "=B1" reaches B1, whose formula "=A1" re-enters A1.
   */
  lemma {:induction false} CycleThroughOther(store: Store, V: set<string>)
    requires "A1" !in V && "B1" !in V
    requires "A1" in store && store["A1"] == CellState("=B1", None)
    requires "B1" in store && store["B1"] == CellState("=A1", None)
    ensures Eval(store, Display(store, "A1"), "A1", V) == Err(CircularReference("A1"))
  {
    ShortKey('A', '1');
    ShortKey('B', '1');
    PairFormulas();
    MutualReferences(store, "A1", "B1", V);
  }

  /** The two formulas of the pair, as `=` followed by the other key. */
  lemma PairFormulas()
    ensures "=B1" == "=" + "B1" && "=A1" == "=" + "A1"
  {
  }

  /**
   * Two distinct keys whose cells hold each other as formulas: evaluating
   * the first from its own content reaches the second, whose formula
   * re-enters the first.
   */
  lemma {:induction false} MutualReferences(store: Store, a: string, b: string, V: set<string>)
    requires IsReference(a) && RefKey(a) == a && |a| >= 2 && a[..2] !in {"MA", "MI", "SU", "AV"}
    requires IsReference(b) && RefKey(b) == b && |b| >= 2 && b[..2] !in {"MA", "MI", "SU", "AV"}
    requires a != b && a !in V && b !in V
    requires a in store && store[a] == CellState("=" + b, None)
    requires b in store && store[b] == CellState("=" + a, None)
    ensures Eval(store, Display(store, a), a, V) == Err(CircularReference(a))
  {
    var W := V + {a};
    ReferenceToVisited(store, a, W + {b});
    SingleReference(store, a, b, W);
    FormulaCell(store, b, a);
    ReferenceFails(store, b, W, CircularReference(a));
    SingleReference(store, b, a, V);
    FormulaCell(store, a, b);
  }

  /** A cell holding `=t` and no cached value reads as `=t`. */
  lemma {:induction false} FormulaCell(store: Store, k: string, t: string)
    requires k in store && store[k] == CellState("=" + t, None)
    ensures Display(store, k) == "=" + t
  {
  }

  /** A reference to a cell whose evaluation fails fails the same way. */
  lemma {:induction false} ReferenceFails(store: Store, t: string, V: set<string>, e: EvalError)
    requires IsReference(t) && RefKey(t) == t && Eval(store, Display(store, t), t, V) == Err(e)
    ensures TokenItem(store, t, V) == Err(e)
  {
    ReferenceIsNoNumber(t);
  }
}
