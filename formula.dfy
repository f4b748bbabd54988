/**
 * Formula tokens and the two-stack arithmetic evaluator of
 * Spreadsheet.evaluateFormula: token classes, cell keys, operator precedence,
 * applyOperator, and the operand/operator stacks driven token by token.
 */
module Formula {
  import opened Wrappers
  import opened Text
  import opened Errors

  // ---------------------------------------------------------------------------
  // Tokens

  /** The characters the arithmetic split cuts around: `[-+*\/]`. */
  const ArithDelims: set<char> := {'+', '-', '*', '/'}

  /** The characters the dependency scan cuts around: `[+*\/()-]`. */
  const RefDelims: set<char> := {'+', '*', '/', '(', ')', '-'}

  /** `[+\-*\/]`: a token that is one operator. */
  predicate IsOperatorToken(t: string) {
    |t| == 1 && t[0] in ArithDelims
  }

  /** `[A-Z]+\d+`: a cell reference such as "B12". */
  predicate IsReference(t: string) {
    var n := LeadingUpper(t);
    0 < n < |t| && OnlyDigits(t[n..])
  }

  /** s.replaceAll("\\d", ""): the text without its digits. */
  function RemoveDigits(s: string): (r: string)
    ensures forall i | 0 <= i < |r| :: !IsDigit(r[i])
    decreases |s|
  {
    if s == [] then []
    else (if IsDigit(s[0]) then [] else [s[0]]) + RemoveDigits(s[1..])
  }

  /** s.replaceAll("\\D", ""): the digits of the text. */
  function KeepDigits(s: string): (r: string)
    ensures OnlyDigits(r)
    decreases |s|
  {
    if s == [] then []
    else (if IsDigit(s[0]) then [s[0]] else []) + KeepDigits(s[1..])
  }

  /** Spreadsheet.createKey: the column followed by the decimal row number. */
  function CreateKey(column: string, row: int): (k: string)
    ensures |k| > |column| && k[..|column|] == column
    ensures row >= 0 ==> AllDigits(k[|column|..])
    ensures row < 0 ==> k[|column|] == '-'
  {
    column + IntToString(row)
  }

  /**
   * The key a reference token is looked up under: its letters, then the
   * number its digits denote (so "A01" names the cell "A1").
   */
  function RefKey(t: string): string
    requires IsReference(t)
  {
    CreateKey(RemoveDigits(t), DigitsValue(KeepDigits(t)))
  }

  lemma {:induction false} RemoveDigitsConcat(a: string, b: string)
    ensures RemoveDigits(a + b) == RemoveDigits(a) + RemoveDigits(b)
    decreases |a|
  {
    if a != [] {
      assert (a + b)[1..] == a[1..] + b;
      RemoveDigitsConcat(a[1..], b);
    } else {
      assert a + b == b;
    }
  }

  lemma {:induction false} KeepDigitsConcat(a: string, b: string)
    ensures KeepDigits(a + b) == KeepDigits(a) + KeepDigits(b)
    decreases |a|
  {
    if a != [] {
      assert (a + b)[1..] == a[1..] + b;
      KeepDigitsConcat(a[1..], b);
    } else {
      assert a + b == b;
    }
  }

  lemma {:induction false} FilterLetters(s: string)
    requires forall i | 0 <= i < |s| :: !IsDigit(s[i])
    ensures RemoveDigits(s) == s && KeepDigits(s) == []
    decreases |s|
  {
    if s != [] {
      FilterLetters(s[1..]);
      assert s == [s[0]] + s[1..];
    }
  }

  lemma {:induction false} FilterDigits(s: string)
    requires OnlyDigits(s)
    ensures RemoveDigits(s) == [] && KeepDigits(s) == s
    decreases |s|
  {
    if s != [] {
      FilterDigits(s[1..]);
      assert s == [s[0]] + s[1..];
    }
  }

  /** A reference splits into its leading letters and its trailing digits. */
  lemma {:induction false} ReferenceParts(t: string)
    requires IsReference(t)
    ensures var n := LeadingUpper(t);
      RemoveDigits(t) == t[..n] && KeepDigits(t) == t[n..]
  {
    var n := LeadingUpper(t);
    assert t == t[..n] + t[n..];
    RemoveDigitsConcat(t[..n], t[n..]);
    KeepDigitsConcat(t[..n], t[n..]);
    FilterLetters(t[..n]);
    FilterDigits(t[n..]);
  }

  /**
   * A key built from an upper-case column and a non-negative row reads back,
   * as a reference, as that same key.
   */
  lemma {:induction false} SelfNaming(column: string, row: int)
    requires column != [] && forall i | 0 <= i < |column| :: IsUpper(column[i])
    requires row >= 0
    ensures IsReference(CreateKey(column, row))
    ensures RefKey(CreateKey(column, row)) == CreateKey(column, row)
  {
    var digits := NatToString(row);
    var key := CreateKey(column, row);
    assert key == column + digits;
    LeadingUpperOfConcat(column, digits);
    assert key[|column|..] == digits;
    ReferenceParts(key);
    assert key[..|column|] == column;
    NatToStringRoundTrip(row);
  }

  /** Looking a reference up normalises it once and for all: the key names itself. */
  lemma {:induction false} RefKeyCanonical(t: string)
    requires IsReference(t)
    ensures IsReference(RefKey(t)) && RefKey(RefKey(t)) == RefKey(t)
  {
    ReferenceParts(t);
    var n := LeadingUpper(t);
    SelfNaming(t[..n], DigitsValue(t[n..]));
  }

  // ---------------------------------------------------------------------------
  // Operators

  /** Spreadsheet.precedence: + and - bind at 1, * and / at 2, anything else at -1. */
  function Precedence(op: char): (p: int)
    ensures p == 1 <==> op == '+' || op == '-'
    ensures p == 2 <==> op == '*' || op == '/'
    ensures p == -1 <==> op !in ArithDelims
  {
    if op == '+' || op == '-' then 1
    else if op == '*' || op == '/' then 2
    else -1
  }

  /**
   * Spreadsheet.applyOperator(op, b, a): `b` is the value popped first (the
   * right operand) and `a` the one popped second (the left operand). Division
   * by zero is reported instead of producing an infinity.
   */
  function ApplyOperator(op: char, b: real, a: real): (r: Result<real, EvalError>)
    ensures r.Err? <==> op == '/' && b == 0.0
    ensures r.Err? ==> r.error == DivisionByZero
  {
    if op == '+' then Ok(a + b)
    else if op == '-' then Ok(a - b)
    else if op == '*' then Ok(a * b)
    else if op == '/' then (if b == 0.0 then Err(DivisionByZero) else Ok(a / b))
    else Ok(0.0)
  }

  // ---------------------------------------------------------------------------
  // The two stacks

  /** A classified token: a number to push, or an operator to reduce with. */
  datatype Item = Num(value: real) | Op(symbol: char)

  /** The operand stack and the operator stack; the top is the last element. */
  datatype Stacks = Stacks(values: seq<real>, ops: seq<char>)

  const Empty := Stacks([], [])

  /**
   * Pop an operator and two operands, push the result. A pop from an empty
   * operand stack is an EmptyStackException.
   */
  function ApplyTop(st: Stacks): (r: Result<Stacks, EvalError>)
    requires st.ops != []
    ensures r.Ok? ==> |r.value.ops| == |st.ops| - 1 && |r.value.values| == |st.values| - 1
    ensures r.Err? ==> r.error == EmptyStack || r.error == DivisionByZero
    ensures r.Err? <==> |st.values| < 2 || (st.ops[|st.ops| - 1] == '/' && st.values[|st.values| - 1] == 0.0)
    ensures r.Ok? ==> r.value.ops == st.ops[..|st.ops| - 1]
    ensures r.Ok? ==> (r.value.values == st.values[..|st.values| - 2] +
      [ApplyOperator(st.ops[|st.ops| - 1], st.values[|st.values| - 1], st.values[|st.values| - 2]).value])
  {
    var op := st.ops[|st.ops| - 1];
    if |st.values| < 2 then Err(EmptyStack)
    else
      var b := st.values[|st.values| - 1];
      var a := st.values[|st.values| - 2];
      var v :- ApplyOperator(op, b, a);
      Ok(Stacks(st.values[..|st.values| - 2] + [v], st.ops[..|st.ops| - 1]))
  }

  /** The inner while loop: apply operators of higher or equal precedence than `op`. */
  function Reduce(st: Stacks, op: char): (r: Result<Stacks, EvalError>)
    ensures r.Ok? ==> r.value.ops == [] || Precedence(op) > Precedence(r.value.ops[|r.value.ops| - 1])
    decreases |st.ops|
  {
    if st.ops != [] && Precedence(op) <= Precedence(st.ops[|st.ops| - 1]) then
      var next :- ApplyTop(st);
      Reduce(next, op)
    else
      Ok(st)
  }

  /** One pass of the token loop for an already classified token. */
  function Step(item: Item, st: Stacks): Result<Stacks, EvalError> {
    match item
    case Num(v) => Ok(Stacks(st.values + [v], st.ops))
    case Op(c) =>
      var next :- Reduce(st, c);
      Ok(Stacks(next.values, next.ops + [c]))
  }

  /** The final while loop and `values.pop()`. */
  function Finish(st: Stacks): Result<real, EvalError>
    decreases |st.ops|
  {
    if st.ops != [] then
      var next :- ApplyTop(st);
      Finish(next)
    else if st.values == [] then Err(EmptyStack)
    else Ok(st.values[|st.values| - 1])
  }

  /** The whole evaluator over classified tokens. */
  function RunItems(items: seq<Item>, st: Stacks): Result<real, EvalError>
    decreases |items|
  {
    if items == [] then Finish(st)
    else
      var next :- Step(items[0], st);
      RunItems(items[1..], next)
  }
}
