/**
 * What Spreadsheet.evaluateFormula computes, as functions over a snapshot of
 * the cells: the literal and formula cases, the aggregate functions with
 * their comma-separated arguments and rectangular ranges, and the token loop
 * with its recursive evaluation of referenced cells under the visited set.
 */
module Evaluation {
  import opened Wrappers
  import opened Text
  import opened Decimal
  import opened Format
  import opened Errors
  import opened Formula

  /** A cell's content and the value cached for it, if any. */
  datatype CellState = CellState(content: string, cached: Option<real>)

  /** The cells by key, as evaluation sees them. */
  type Store = map<string, CellState>

  /**
   * Spreadsheet.getCellContent: "0" for an absent or empty cell, the cached
   * value printed with one decimal, or else the content itself.
   */
  function Display(store: Store, key: string): (s: string)
    ensures s != []
  {
    if key !in store || store[key].content == "" then "0"
    else match store[key].cached
      case Some(v) => FormatOneDecimal(v)
      case None => store[key].content
  }

  predicate IsFormula(f: string) {
    StartsWith(f, "=")
  }

  lemma {:induction false} NotFormula(f: string)
    requires f != [] && f[0] != '='
    ensures !IsFormula(f)
  {
    assert f[..1][0] == f[0];
  }

  // ---------------------------------------------------------------------------
  // Termination: every nested evaluation either enters a present key that is
  // not yet visited, or reads an absent key whose text "0" is no formula.

  function Budget(store: Store, V: set<string>): nat {
    2 * |store.Keys - V| + 2
  }

  function BodyRank(store: Store, f: string, V: set<string>): nat {
    2 * |store.Keys - V| + (if IsFormula(f) then 2 else 1)
  }

  function Rank(store: Store, f: string, cur: string, V: set<string>): nat {
    if cur in V then 0 else BodyRank(store, f, V + {cur})
  }

  lemma {:induction false} RemoveOne(S: set<string>, k: string)
    requires k in S
    ensures |S - {k}| == |S| - 1
  {
    assert S == (S - {k}) + {k};
  }

  lemma {:induction false} RankBelow(store: Store, k: string, V: set<string>)
    ensures Rank(store, Display(store, k), k, V) < Budget(store, V)
  {
    if k !in V {
      var f := Display(store, k);
      if k in store {
        assert store.Keys - (V + {k}) == (store.Keys - V) - {k};
        RemoveOne(store.Keys - V, k);
      } else {
        assert f == "0";
        NotFormula(f);
        assert store.Keys - (V + {k}) == store.Keys - V;
      }
    }
  }

  // ---------------------------------------------------------------------------
  // Aggregates

  datatype Aggregate = Max | Min | Sum | Average

  function Name(agg: Aggregate): string {
    match agg
    case Max => "MAX"
    case Min => "MIN"
    case Sum => "SUM"
    case Average => "AVERAGE"
  }

  function MaxOf(vs: seq<real>): (m: real)
    requires vs != []
    ensures m in vs && forall i | 0 <= i < |vs| :: vs[i] <= m
    decreases |vs|
  {
    if |vs| == 1 then vs[0]
    else
      var m := MaxOf(vs[..|vs| - 1]);
      if vs[|vs| - 1] > m then vs[|vs| - 1] else m
  }

  function MinOf(vs: seq<real>): (m: real)
    requires vs != []
    ensures m in vs && forall i | 0 <= i < |vs| :: m <= vs[i]
    decreases |vs|
  {
    if |vs| == 1 then vs[0]
    else
      var m := MinOf(vs[..|vs| - 1]);
      if vs[|vs| - 1] < m then vs[|vs| - 1] else m
  }

  function SumOf(vs: seq<real>): real
    decreases |vs|
  {
    if vs == [] then 0.0 else SumOf(vs[..|vs| - 1]) + vs[|vs| - 1]
  }

  /** The stream reductions: max, min, sum and average, the empty case included. */
  function Combine(agg: Aggregate, vs: seq<real>): (r: Result<real, EvalError>)
    ensures r.Err? <==> vs == [] && agg != Sum
    ensures r.Err? ==> r.error == EmptyRange
    ensures agg == Sum && vs == [] ==> r == Ok(0.0)
  {
    match agg
    case Max => if vs == [] then Err(EmptyRange) else Ok(MaxOf(vs))
    case Min => if vs == [] then Err(EmptyRange) else Ok(MinOf(vs))
    case Sum => Ok(SumOf(vs))
    case Average => if vs == [] then Err(EmptyRange) else Ok(SumOf(vs) / |vs| as real)
  }

  /**
   * What each reduction yields on values: MAX the largest, MIN the smallest,
   * SUM the total and AVERAGE the total over the count.
   */
  lemma CombineValue(agg: Aggregate, vs: seq<real>)
    ensures agg == Max && vs != [] ==>
      (Combine(agg, vs).Ok? && Combine(agg, vs).value in vs &&
       forall i | 0 <= i < |vs| :: vs[i] <= Combine(agg, vs).value)
    ensures agg == Min && vs != [] ==>
      (Combine(agg, vs).Ok? && Combine(agg, vs).value in vs &&
       forall i | 0 <= i < |vs| :: Combine(agg, vs).value <= vs[i])
    ensures agg == Sum ==> Combine(agg, vs) == Ok(SumOf(vs))
    ensures agg == Average && vs != [] ==> Combine(agg, vs) == Ok(SumOf(vs) / |vs| as real)
  {
  }

  lemma {:induction false} SumBounds(vs: seq<real>, lo: real, hi: real)
    requires forall i | 0 <= i < |vs| :: lo <= vs[i] <= hi
    ensures |vs| as real * lo <= SumOf(vs) <= |vs| as real * hi
    decreases |vs|
  {
    if vs != [] {
      SumBounds(vs[..|vs| - 1], lo, hi);
    }
  }

  lemma {:induction false} QuotientAbove(s: real, n: real, lo: real)
    requires n > 0.0 && n * lo <= s
    ensures lo <= s / n
  {
    assert s / n - lo == (s - n * lo) / n;
  }

  lemma {:induction false} QuotientBelow(s: real, n: real, hi: real)
    requires n > 0.0 && s <= n * hi
    ensures s / n <= hi
  {
    assert hi - s / n == (n * hi - s) / n;
  }

  /** The average of a non-empty list lies between its minimum and its maximum. */
  lemma {:induction false} AverageBetween(vs: seq<real>)
    requires vs != []
    ensures MinOf(vs) <= Combine(Average, vs).value <= MaxOf(vs)
  {
    AverageAboveMin(vs);
    AverageBelowMax(vs);
  }

  lemma {:induction false} AverageAboveMin(vs: seq<real>)
    requires vs != []
    ensures MinOf(vs) <= SumOf(vs) / |vs| as real
  {
    SumBounds(vs, MinOf(vs), MaxOf(vs));
    QuotientAbove(SumOf(vs), |vs| as real, MinOf(vs));
  }

  lemma {:induction false} AverageBelowMax(vs: seq<real>)
    requires vs != []
    ensures SumOf(vs) / |vs| as real <= MaxOf(vs)
  {
    SumBounds(vs, MinOf(vs), MaxOf(vs));
    QuotientBelow(SumOf(vs), |vs| as real, MaxOf(vs));
  }

  // ---------------------------------------------------------------------------
  // Function arguments and ranges

  /**
   * Spreadsheet.extractRange: the text between `NAME(` and the final `)`,
   * trimmed; anything else is an invalid formula.
   */
  function ExtractRange(formula: string, name: string): (r: Result<string, EvalError>)
    ensures r.Ok? <==> StartsWith(formula, name + "(") && EndsWith(formula, ")")
    ensures r.Err? ==> r.error == InvalidFormula(formula)
  {
    if !StartsWith(formula, name + "(") || !EndsWith(formula, ")") then
      Err(InvalidFormula(formula))
    else
      assert formula[|name|] == '(';
      Ok(Trim(formula[|name| + 1..|formula| - 1]))
  }

  /** Wrapping arguments in a call and extracting them again gives them back, trimmed. */
  lemma {:induction false} ExtractRangeOfCall(name: string, inner: string)
    ensures ExtractRange(name + "(" + inner + ")", name) == Ok(Trim(inner))
  {
    var f := name + "(" + inner + ")";
    assert f[..|name + "("|] == name + "(";
    assert f[|f| - 1..] == ")";
    assert f[|name| + 1..|f| - 1] == inner;
  }

  /** `[A-Z]+\d+:[A-Z]+\d+` */
  predicate IsRangeText(p: string) {
    var i := IndexOfAny(p, {':'});
    i >= 0 && IsReference(p[..i]) && IsReference(p[i + 1..])
  }

  lemma {:induction false} ReferenceHasNoColon(t: string)
    requires IsReference(t)
    ensures ':' !in t
  {
    var n := LeadingUpper(t);
    forall i | 0 <= i < |t| ensures t[i] != ':' {
      if i >= n { assert t[i] == t[n..][i - n]; }
    }
  }

  /** The corner before the colon of a range. */
  function StartCorner(p: string): (c: string)
    requires IsRangeText(p)
    ensures IsReference(c)
  {
    p[..IndexOfAny(p, {':'})]
  }

  /** The corner after the colon of a range. */
  function EndCorner(p: string): (c: string)
    requires IsRangeText(p)
    ensures IsReference(c)
  {
    p[IndexOfAny(p, {':'}) + 1..]
  }

  /** A range splits at its colon into exactly its two corners. */
  lemma {:induction false} RangeCorners(p: string)
    requires IsRangeText(p)
    ensures SplitOn(p, ':') == [StartCorner(p), EndCorner(p)]
  {
    var i := IndexOfAny(p, {':'});
    ReferenceHasNoColon(p[i + 1..]);
    assert ':' !in p[..i] by {
      forall j | 0 <= j < i ensures p[..i][j] != ':' { assert p[..i][j] == p[j]; }
    }
    assert p == p[..i] + [':'] + p[i + 1..];
    SplitOnTwo(p[..i], p[i + 1..], ':');
  }

  /** The column letter a range corner starts at. */
  function CornerColumn(corner: string): (c: char)
    requires IsReference(corner)
    ensures IsUpper(c)
  {
    ReferenceParts(corner);
    RemoveDigits(corner)[0]
  }

  /** The row number of a range corner. */
  function CornerRow(corner: string): nat
    requires IsReference(corner)
  {
    DigitsValue(KeepDigits(corner))
  }

  /** The key of the cell in column `c` (a character code) and row `r`. */
  function KeyAt(c: int, r: int): string
    requires 0 <= c <= 'Z' as int
  {
    CreateKey([c as char], r)
  }

  /** The keys of one column, rows r0 to r1 in increasing order. */
  function ColumnKeys(c: char, r0: int, r1: int): (ks: seq<string>)
    ensures |ks| == if r1 < r0 then 0 else r1 - r0 + 1
    ensures forall i | 0 <= i < |ks| :: ks[i] == CreateKey([c], r0 + i)
    decreases r1 - r0
  {
    if r1 < r0 then [] else ColumnKeys(c, r0, r1 - 1) + [CreateKey([c], r1)]
  }

  /** The keys of a range, column by column, each column top to bottom. */
  function RangeKeys(c0: char, c1: int, r0: int, r1: int): (ks: seq<string>)
    requires c1 <= 'Z' as int
    ensures ks == [] <==> c1 < c0 as int || r1 < r0
    decreases c1 - c0 as int
  {
    if c1 < c0 as int then []
    else RangeKeys(c0, c1 - 1, r0, r1) + ColumnKeys(c1 as char, r0, r1)
  }

  // ---------------------------------------------------------------------------
  // Evaluation

  /**
   * evaluateFormula(f, cur) with `V` the visited set: re-entering a visited
   * key fails; otherwise the body runs with `cur` marked as visited.
   */
  function Eval(store: Store, f: string, cur: string, V: set<string>): Result<real, EvalError>
    decreases Rank(store, f, cur, V), 6, 0
  {
    if cur in V then Err(CircularReference(cur))
    else EvalBody(store, f, V + {cur})
  }

  /** The body of evaluateFormula (its try block), `V` already holding the current key. */
  function EvalBody(store: Store, f: string, V: set<string>): Result<real, EvalError>
    decreases BodyRank(store, f, V), 5, 0
  {
    if f == "" then Err(EmptyCell)
    else if !IsFormula(f) then
      match ParseDecimal(f)
      case None => Err(InvalidValue(f))
      case Some(v) => Ok(v)
    else
      var body := f[1..];
      if StartsWith(body, "MAX(") then EvalFunction(store, body, Max, V)
      else if StartsWith(body, "MIN(") then EvalFunction(store, body, Min, V)
      else if StartsWith(body, "SUM(") then EvalFunction(store, body, Sum, V)
      else if StartsWith(body, "AVERAGE(") then EvalFunction(store, body, Average, V)
      else RunTokens(store, Tokenize(body, ArithDelims), V, Empty)
  }

  /** One of MAX, MIN, SUM, AVERAGE: its arguments, their values, the reduction. */
  function EvalFunction(store: Store, body: string, agg: Aggregate, V: set<string>): Result<real, EvalError>
    decreases Budget(store, V), 4, 0
  {
    var args :- ExtractRange(body, Name(agg));
    var values :- EvalArgs(store, SplitOn(args, ','), V);
    Combine(agg, values)
  }

  /** parseMultipleRanges: the values of the comma-separated parts, in order. */
  function EvalArgs(store: Store, parts: seq<string>, V: set<string>): Result<seq<real>, EvalError>
    decreases Budget(store, V), 3, |parts|
  {
    if parts == [] then Ok([])
    else
      var prefix :- EvalArgs(store, parts[..|parts| - 1], V);
      var more :- EvalArg(store, Trim(parts[|parts| - 1]), V);
      Ok(prefix + more)
  }

  /** One trimmed argument: a non-negative decimal, or a range of cells. */
  function EvalArg(store: Store, p: string, V: set<string>): (r: Result<seq<real>, EvalError>)
    ensures r.Err? && !IsDecimalNumeral(p) && !IsRangeText(p) ==> r.error == InvalidRange(p)
    ensures r.Ok? ==> IsDecimalNumeral(p) || IsRangeText(p)
    decreases Budget(store, V), 2, 0
  {
    if IsDecimalNumeral(p) then
      ParseNumeral(p);
      Ok([ParseDecimal(p).value])
    else if IsRangeText(p) then EvalRange(store, p, V)
    else Err(InvalidRange(p))
  }

  /** parseRange: the values of the cells between two corners. */
  function EvalRange(store: Store, range: string, V: set<string>): Result<seq<real>, EvalError>
    requires IsRangeText(range)
    decreases Budget(store, V), 1, 0
  {
    RangeCorners(range);
    var parts := SplitOn(range, ':');
    var start, end := parts[0], parts[1];
    EvalCells(store, RangeKeys(CornerColumn(start), CornerColumn(end) as int, CornerRow(start), CornerRow(end)), V)
  }

  /** The values of the given cells in order; a visited key is a circular reference. */
  function EvalCells(store: Store, keys: seq<string>, V: set<string>): Result<seq<real>, EvalError>
    decreases Budget(store, V), 0, |keys|
  {
    if keys == [] then Ok([])
    else
      var prefix :- EvalCells(store, keys[..|keys| - 1], V);
      var k := keys[|keys| - 1];
      if k in V then Err(CircularReference(k))
      else
        RankBelow(store, k, V);
        var v :- Eval(store, Display(store, k), k, V);
        Ok(prefix + [v])
  }

  /** The token loop, the stacks in `st`, then the final loop. */
  function RunTokens(store: Store, tokens: seq<string>, V: set<string>, st: Stacks): Result<real, EvalError>
    decreases Budget(store, V), 1, |tokens|
  {
    if tokens == [] then Finish(st)
    else
      var item :- TokenItem(store, tokens[0], V);
      var next :- Step(item, st);
      RunTokens(store, tokens[1..], V, next)
  }

  /** A token as the loop classifies it; a reference is evaluated on the spot. */
  function TokenItem(store: Store, t: string, V: set<string>): (r: Result<Item, EvalError>)
    ensures r.Err? && !IsReference(t) ==> !Admissible(t) && r.error == InvalidToken(t)
    decreases Budget(store, V), 0, 0
  {
    if AllDigits(t) then Ok(Num(DigitsValue(t) as real))
    else if IsOperatorToken(t) then Ok(Op(t[0]))
    else if IsReference(t) then
      var key := RefKey(t);
      RankBelow(store, key, V);
      var v :- Eval(store, Display(store, key), key, V);
      Ok(Num(v))
    else Err(InvalidToken(t))
  }

  /** The token shapes the loop accepts: `\d+`, `[+\-*\/]` and `[A-Z]+\d+`. */
  predicate Admissible(t: string) {
    AllDigits(t) || IsOperatorToken(t) || IsReference(t)
  }
}
