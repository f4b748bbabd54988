/**
 * Properties of the evaluation functions: how references, literals and
 * invalid tokens behave, that the token loop is the two-stack evaluator of
 * the Grouping module, how aggregate arguments and ranges are checked and
 * walked, and how an error in a prefix decides the whole result.
 */
module EvaluationFacts {
  import opened Wrappers
  import opened Text
  import opened Decimal
  import opened Format
  import opened Errors
  import opened Formula
  import opened Grouping
  import opened Evaluation

  // ---------------------------------------------------------------------------
  // References and literals

  /** Content that is a string of digits evaluates to the number they denote. */
  lemma {:induction false} DigitsContent(store: Store, f: string, cur: string, V: set<string>)
    requires cur !in V && AllDigits(f)
    ensures Eval(store, f, cur, V) == Ok(DigitsValue(f) as real)
  {
    NotFormula(f);
    ParseDigits(f);
  }

  /** "0", the text of an unset cell, evaluates to zero. */
  lemma {:induction false} ZeroText(store: Store, cur: string, V: set<string>)
    requires cur !in V
    ensures Eval(store, "0", cur, V) == Ok(0.0)
  {
    ZeroDigits("0", store, cur, V);
  }

  lemma {:induction false} ZeroDigits(z: string, store: Store, cur: string, V: set<string>)
    requires z == ['0'] && cur !in V
    ensures Eval(store, z, cur, V) == Ok(0.0)
  {
    assert AllDigits(z) by { assert z[0] == '0'; }
    assert DigitsValue(z) == 0 by { assert z[..0] == []; }
    DigitsContent(store, z, cur, V);
  }

  /** A reference is neither a digit string nor an operator. */
  lemma {:induction false} ReferenceIsNoNumber(t: string)
    requires IsReference(t)
    ensures !AllDigits(t) && !IsOperatorToken(t)
  {
    assert IsUpper(t[0]);
  }

  /** A reference to a key being evaluated fails as a circular reference. */
  lemma {:induction false} ReferenceToVisited(store: Store, t: string, V: set<string>)
    requires IsReference(t) && RefKey(t) in V
    ensures TokenItem(store, t, V) == Err(CircularReference(RefKey(t)))
  {
    ReferenceIsNoNumber(t);
  }

  /** A reference to an absent or empty cell evaluates to 0. */
  lemma {:induction false} UnsetReferenceIsZero(store: Store, t: string, V: set<string>)
    requires IsReference(t) && RefKey(t) !in V
    requires RefKey(t) !in store || store[RefKey(t)].content == ""
    ensures TokenItem(store, t, V) == Ok(Num(0.0))
  {
    ReferenceIsNoNumber(t);
    ZeroText(store, RefKey(t), V);
  }

  /** A reference to a cell holding digits and no cached value reads that number. */
  lemma {:induction false} NumberReference(store: Store, t: string, V: set<string>)
    requires IsReference(t) && RefKey(t) !in V && RefKey(t) in store
    requires store[RefKey(t)].cached == None && store[RefKey(t)].content != []
    requires AllDigits(store[RefKey(t)].content)
    ensures TokenItem(store, t, V) == Ok(Num(DigitsValue(store[RefKey(t)].content) as real))
  {
    ReferenceIsNoNumber(t);
    DigitsContent(store, store[RefKey(t)].content, RefKey(t), V);
  }

  /** The text "%.1f" produces is never a formula. */
  lemma {:induction false} FormattedIsNoFormula(v: real)
    ensures !IsFormula(FormatOneDecimal(v))
  {
    var s := FormatOneDecimal(v);
    var body := TenthsText(Tenths(v));
    TenthsTextShape(Tenths(v));
    if v < 0.0 {
      assert s == "-" + body;
      assert s[0] == '-';
    } else {
      assert s == body;
      assert IsDigit(NatToString(Tenths(v) / 10)[0]);
      assert s[0] == NatToString(Tenths(v) / 10)[0];
    }
    NotFormula(s);
  }

  /** A cached value's one-decimal text evaluates to the value rounded to tenths. */
  lemma {:induction false} FormattedValue(store: Store, v: real, cur: string, V: set<string>)
    requires cur !in V
    ensures Eval(store, FormatOneDecimal(v), cur, V) == Ok(RoundedToTenths(v))
  {
    FormattedIsNoFormula(v);
    FormatParses(v);
  }

  /**
   * A reference to a cell with a cached value reads that value back through
   * its one-decimal text, that is, rounded half up to tenths.
   */
  lemma {:induction false} CachedReferenceIsRounded(store: Store, t: string, V: set<string>, v: real)
    requires IsReference(t) && RefKey(t) !in V
    requires RefKey(t) in store && store[RefKey(t)].content != ""
    requires store[RefKey(t)].cached == Some(v)
    ensures TokenItem(store, t, V) == Ok(Num(RoundedToTenths(v)))
  {
    ReferenceIsNoNumber(t);
    var key := RefKey(t);
    assert Display(store, key) == FormatOneDecimal(v);
    FormattedValue(store, v, key, V);
  }

  /** Plain content is its decimal value, or fails as an invalid value; empty content fails. */
  lemma {:induction false} LiteralValue(store: Store, f: string, cur: string, V: set<string>)
    requires cur !in V && !IsFormula(f)
    ensures f == "" ==> Eval(store, f, cur, V) == Err(EmptyCell)
    ensures f != "" && ParseDecimal(f).None? ==> Eval(store, f, cur, V) == Err(InvalidValue(f))
    ensures f != "" && ParseDecimal(f).Some? ==> Eval(store, f, cur, V) == Ok(ParseDecimal(f).value)
  {
  }

  // ---------------------------------------------------------------------------
  // Invalid tokens

  /** Every character of an accepted token is a digit, an upper-case letter or an operator. */
  lemma {:induction false} AdmissibleChars(t: string, k: nat)
    requires Admissible(t) && k < |t|
    ensures IsDigit(t[k]) || IsUpper(t[k]) || t[k] in ArithDelims
  {
    if IsReference(t) && !AllDigits(t) && !IsOperatorToken(t) {
      var n := LeadingUpper(t);
      if k >= n {
        assert t[k] == t[n..][k - n];
      }
    }
  }

  /**
   * One token that fails to resolve (one that is not a number, an operator or
   * a reference, or a reference whose evaluation fails) makes the loop fail.
   */
  lemma {:induction false} FailingTokenFails(store: Store, tokens: seq<string>, V: set<string>, st: Stacks, j: nat)
    requires j < |tokens| && TokenItem(store, tokens[j], V).Err?
    ensures RunTokens(store, tokens, V, st).Err?
    decreases j
  {
    if j > 0 {
      var item := TokenItem(store, tokens[0], V);
      if item.Ok? {
        var next := Step(item.value, st);
        if next.Ok? {
          assert tokens[1..][j - 1] == tokens[j];
          FailingTokenFails(store, tokens[1..], V, next.value, j - 1);
        }
      }
    }
  }

  /** A character that no accepted token holds makes the token loop fail. */
  lemma {:induction false} StrayTokenFails(store: Store, body: string, V: set<string>, i: nat)
    requires i < |body| && !IsDigit(body[i]) && !IsUpper(body[i]) && body[i] !in ArithDelims
    ensures RunTokens(store, Tokenize(body, ArithDelims), V, Empty).Err?
  {
    var tokens := Split(body, ArithDelims);
    assert Tokenize(body, ArithDelims) == tokens;
    SplitCovers(body, ArithDelims, i);
    var t :| t in tokens && body[i] in t;
    var k :| 0 <= k < |t| && t[k] == body[i];
    if Admissible(t) {
      AdmissibleChars(t, k);
    }
    var j :| 0 <= j < |tokens| && tokens[j] == t;
    assert TokenItem(store, t, V).Err?;
    FailingTokenFails(store, tokens, V, Empty, j);
  }

  /**
   * An arithmetic formula holding any character other than a digit, an
   * upper-case letter or `+ - * /` fails: decimals, spaces and parentheses
   * are rejected.
   */
  lemma {:induction false} StrayCharacterFails(store: Store, f: string, cur: string, V: set<string>, i: nat)
    requires IsFormula(f)
    requires !StartsWith(f[1..], "MAX(") && !StartsWith(f[1..], "MIN(")
    requires !StartsWith(f[1..], "SUM(") && !StartsWith(f[1..], "AVERAGE(")
    requires 1 <= i < |f| && !IsDigit(f[i]) && !IsUpper(f[i]) && f[i] !in ArithDelims
    ensures Eval(store, f, cur, V).Err?
  {
    if cur !in V {
      assert f[1..][i - 1] == f[i];
      StrayTokenFails(store, f[1..], V + {cur}, i - 1);
    }
  }

  // ---------------------------------------------------------------------------
  // The token loop is the two-stack evaluator

  /** Once every token resolves, the loop over tokens is the loop over their items. */
  lemma {:induction false} TokensAsItems(store: Store, tokens: seq<string>, V: set<string>, items: seq<Item>, st: Stacks)
    requires |items| == |tokens|
    requires forall j | 0 <= j < |tokens| :: TokenItem(store, tokens[j], V) == Ok(items[j])
    ensures RunTokens(store, tokens, V, st) == RunItems(items, st)
    decreases |tokens|
  {
    if tokens != [] {
      assert TokenItem(store, tokens[0], V) == Ok(items[0]);
      var next := Step(items[0], st);
      if next.Ok? {
        forall j | 0 <= j < |tokens| - 1
          ensures TokenItem(store, tokens[1..][j], V) == Ok(items[1..][j])
        {
          assert tokens[1..][j] == tokens[j + 1];
        }
        TokensAsItems(store, tokens[1..], V, items[1..], next.value);
      }
    }
  }

  /**
   * A formula whose tokens resolve to numbers alternating with operators is
   * evaluated with `*` and `/` binding tighter than `+` and `-`, and equal
   * precedences grouped from the left.
   */
  lemma {:induction false} FormulaFollowsPrecedence(store: Store, tokens: seq<string>, V: set<string>, vs: seq<real>, os: seq<char>)
    requires IsChain(vs, os)
    requires |tokens| == |Interleave(vs, os)|
    requires forall j | 0 <= j < |tokens| :: TokenItem(store, tokens[j], V) == Ok(Interleave(vs, os)[j])
    ensures RunTokens(store, tokens, V, Empty) == Expr(vs, os)
  {
    TokensAsItems(store, tokens, V, Interleave(vs, os), Empty);
    StacksFollowPrecedence(vs, os);
  }

  // ---------------------------------------------------------------------------
  // Errors in a prefix

  /** An argument list whose prefix fails fails with the prefix's error. */
  lemma {:induction false} ArgsPrefixError(store: Store, parts: seq<string>, j: nat, V: set<string>)
    requires j <= |parts| && EvalArgs(store, parts[..j], V).Err?
    ensures EvalArgs(store, parts, V) == EvalArgs(store, parts[..j], V)
    decreases |parts|, 1
  {
    if j < |parts| {
      ArgsLongerError(store, parts, j, V);
    } else {
      assert parts[..j] == parts;
    }
  }

  /** The step of `ArgsPrefixError`: the failing prefix is shorter than the whole list. */
  lemma {:induction false} ArgsLongerError(store: Store, parts: seq<string>, j: nat, V: set<string>)
    requires j < |parts| && EvalArgs(store, parts[..j], V).Err?
    ensures EvalArgs(store, parts, V) == EvalArgs(store, parts[..j], V)
    decreases |parts|, 0
  {
    var init := parts[..|parts| - 1];
    PrefixOfInit(parts, j);
    ArgsPrefixError(store, init, j, V);
    ArgsSplit(store, parts, V);
  }

  /** Dropping the last element keeps every shorter prefix. */
  lemma PrefixOfInit<T>(s: seq<T>, j: nat)
    requires j < |s|
    ensures s[..|s| - 1][..j] == s[..j]
  {
  }

  /** A nonempty argument list fails where its first parts fail, and evaluates only if its last part does. */
  lemma {:induction false} ArgsSplit(store: Store, parts: seq<string>, V: set<string>)
    requires parts != []
    ensures var init := EvalArgs(store, parts[..|parts| - 1], V);
      (init.Err? ==> EvalArgs(store, parts, V) == init) &&
      (EvalArgs(store, parts, V).Ok? ==> init.Ok? && EvalArg(store, Trim(parts[|parts| - 1]), V).Ok?)
  {
  }

  /** One more argument: the list extends by its values, or fails with its error. */
  lemma {:induction false} ArgsStep(store: Store, parts: seq<string>, i: nat, V: set<string>, vs: seq<real>)
    requires i < |parts| && EvalArgs(store, parts[..i], V) == Ok(vs)
    ensures var arg := EvalArg(store, Trim(parts[i]), V);
      EvalArgs(store, parts[..i + 1], V) == if arg.Err? then Err(arg.error) else Ok(vs + arg.value)
  {
    var ps := parts[..i + 1];
    assert ps != [];
    assert ps[..|ps| - 1] == parts[..i];
    assert ps[|ps| - 1] == parts[i];
  }

  /** The three cases of one argument: a decimal, a range, or an invalid range. */
  lemma {:induction false} ArgCases(store: Store, p: string, V: set<string>)
    ensures IsDecimalNumeral(p) ==> ParseDecimal(p).Some? && EvalArg(store, p, V) == Ok([ParseDecimal(p).value])
    ensures !IsDecimalNumeral(p) && IsRangeText(p) ==> EvalArg(store, p, V) == EvalRange(store, p, V)
    ensures !IsDecimalNumeral(p) && !IsRangeText(p) ==> EvalArg(store, p, V) == Err(InvalidRange(p))
  {
    if IsDecimalNumeral(p) {
      ParseNumeral(p);
    }
  }

  /** One more cell: the list extends by its value, or fails with its error. */
  lemma {:induction false} CellsStep(store: Store, keys: seq<string>, k: string, V: set<string>, vs: seq<real>)
    requires EvalCells(store, keys, V) == Ok(vs)
    ensures k in V ==> EvalCells(store, keys + [k], V) == Err(CircularReference(k))
    ensures k !in V ==> var e := Eval(store, Display(store, k), k, V);
      EvalCells(store, keys + [k], V) == if e.Err? then Err(e.error) else Ok(vs + [e.value])
  {
    var ks := keys + [k];
    assert ks[..|ks| - 1] == keys;
    assert ks[|ks| - 1] == k;
  }

  /** One more cell with a value: the list extends by that value. */
  lemma {:induction false} CellsStepValue(store: Store, keys: seq<string>, k: string, V: set<string>, vs: seq<real>, v: real)
    requires EvalCells(store, keys, V) == Ok(vs)
    requires k !in V && Eval(store, Display(store, k), k, V) == Ok(v)
    ensures EvalCells(store, keys + [k], V) == Ok(vs + [v])
  {
    CellsStep(store, keys, k, V, vs);
  }

  /** A cell list whose prefix fails fails with the prefix's error. */
  lemma {:induction false} CellsPrefixError(store: Store, keys: seq<string>, j: nat, V: set<string>)
    requires j <= |keys| && EvalCells(store, keys[..j], V).Err?
    ensures EvalCells(store, keys, V) == EvalCells(store, keys[..j], V)
    decreases |keys|
  {
    if j < |keys| {
      var init := keys[..|keys| - 1];
      assert init[..j] == keys[..j];
      CellsPrefixError(store, init, j, V);
    } else {
      assert keys[..j] == keys;
    }
  }

  // ---------------------------------------------------------------------------
  // Aggregate arguments

  /**
   * An argument list is accepted only if every trimmed part is a decimal or a
   * range; the first part that is neither, after parts that evaluate, fails
   * the list as an invalid range.
   */
  lemma {:induction false} ArgsAccepted(store: Store, parts: seq<string>, V: set<string>)
    ensures EvalArgs(store, parts, V).Ok? ==>
      forall j | 0 <= j < |parts| :: IsDecimalNumeral(Trim(parts[j])) || IsRangeText(Trim(parts[j]))
  {
    if EvalArgs(store, parts, V).Ok? {
      forall j | 0 <= j < |parts|
        ensures IsDecimalNumeral(Trim(parts[j])) || IsRangeText(Trim(parts[j]))
      {
        ArgAccepted(store, parts, V, j);
      }
    }
  }

  /** One part of an accepted argument list is a decimal or a range. */
  lemma {:induction false} ArgAccepted(store: Store, parts: seq<string>, V: set<string>, j: nat)
    requires j < |parts| && EvalArgs(store, parts, V).Ok?
    ensures IsDecimalNumeral(Trim(parts[j])) || IsRangeText(Trim(parts[j]))
    decreases |parts|
  {
    var init := parts[..|parts| - 1];
    ArgsSplit(store, parts, V);
    if j < |parts| - 1 {
      assert init[j] == parts[j];
      ArgAccepted(store, init, V, j);
    }
  }

  lemma {:induction false} ArgsFirstInvalid(store: Store, parts: seq<string>, j: nat, V: set<string>)
    requires j < |parts| && EvalArgs(store, parts[..j], V).Ok?
    requires !IsDecimalNumeral(Trim(parts[j])) && !IsRangeText(Trim(parts[j]))
    ensures EvalArgs(store, parts, V) == Err(InvalidRange(Trim(parts[j])))
  {
    var p := Trim(parts[j]);
    ArgCases(store, p, V);
    ArgsStep(store, parts, j, V, EvalArgs(store, parts[..j], V).value);
    assert EvalArgs(store, parts[..j + 1], V) == Err(InvalidRange(p));
    ArgsPrefixError(store, parts, j + 1, V);
  }

  /** A function formula whose arguments evaluate to nothing: SUM is 0, the others fail. */
  lemma {:induction false} NoValues(store: Store, body: string, agg: Aggregate, V: set<string>)
    requires StartsWith(body, Name(agg) + "(") && EndsWith(body, ")")
    requires EvalArgs(store, SplitOn(ExtractRange(body, Name(agg)).value, ','), V) == Ok([])
    ensures EvalFunction(store, body, agg, V) == if agg == Sum then Ok(0.0) else Err(EmptyRange)
  {
  }

  // ---------------------------------------------------------------------------
  // Ranges

  lemma {:induction false} CellsLength(store: Store, keys: seq<string>, V: set<string>)
    ensures EvalCells(store, keys, V).Ok? ==> |EvalCells(store, keys, V).value| == |keys|
    decreases |keys|
  {
    if keys != [] {
      CellsLength(store, keys[..|keys| - 1], V);
    }
  }

  /** An unset cell not being evaluated reads as 0. */
  lemma {:induction false} UnsetCellIsZero(store: Store, k: string, V: set<string>)
    requires k !in store && k !in V
    ensures Eval(store, Display(store, k), k, V) == Ok(0.0)
  {
    assert Display(store, k) == "0";
    ZeroText(store, k, V);
  }

  /** Cells that are unset and not being evaluated contribute one 0 each. */
  lemma {:induction false} UnsetCellsAreZero(store: Store, keys: seq<string>, V: set<string>)
    requires forall j | 0 <= j < |keys| :: keys[j] !in store && keys[j] !in V
    ensures var r := EvalCells(store, keys, V);
      r.Ok? && |r.value| == |keys| && forall i | 0 <= i < |r.value| :: r.value[i] == 0.0
    decreases |keys|
  {
    if keys != [] {
      var init := keys[..|keys| - 1];
      var k := keys[|keys| - 1];
      assert forall j | 0 <= j < |init| :: init[j] == keys[j];
      UnsetCellsAreZero(store, init, V);
      var vs := EvalCells(store, init, V).value;
      UnsetCellIsZero(store, k, V);
      CellsStepValue(store, init, k, V, vs, 0.0);
      DropLast(keys);
      var ws := vs + [0.0];
      assert forall i | 0 <= i < |ws| :: ws[i] == 0.0;
    }
  }

  /** A range that evaluates yields no value exactly when its corners are descending. */
  lemma {:induction false} RangeEmptyIffDescending(store: Store, range: string, V: set<string>)
    requires IsRangeText(range) && EvalRange(store, range, V).Ok?
    ensures var start, end := StartCorner(range), EndCorner(range);
      EvalRange(store, range, V).value == [] <==>
        CornerColumn(end) < CornerColumn(start) || CornerRow(end) < CornerRow(start)
  {
    var start, end := StartCorner(range), EndCorner(range);
    RangeAsCells(store, range, V);
    CellsEmptyIff(store, CornerColumn(start), CornerColumn(end), CornerRow(start), CornerRow(end), V);
  }

  /** The cells of a rectangle evaluate to no value exactly when the rectangle is empty. */
  lemma {:induction false} CellsEmptyIff(store: Store, c0: char, c1: char, r0: int, r1: int, V: set<string>)
    requires c1 <= 'Z' && EvalCells(store, RangeKeys(c0, c1 as int, r0, r1), V).Ok?
    ensures EvalCells(store, RangeKeys(c0, c1 as int, r0, r1), V).value == [] <==> c1 < c0 || r1 < r0
  {
    CellsLength(store, RangeKeys(c0, c1 as int, r0, r1), V);
  }

  /** A range evaluates as the cells between the corners on either side of its colon. */
  lemma {:induction false} RangeAsCells(store: Store, range: string, V: set<string>)
    requires IsRangeText(range)
    ensures var start, end := StartCorner(range), EndCorner(range);
      EvalRange(store, range, V) == EvalCells(store, RangeKeys(CornerColumn(start), CornerColumn(end) as int, CornerRow(start), CornerRow(end)), V)
  {
    RangeCorners(range);
  }

  /** A key is among a range's keys exactly when it names a cell inside the rectangle. */
  lemma {:induction false} RangeKeysCover(c0: char, c1: int, r0: int, r1: int, k: string)
    requires c1 <= 'Z' as int
    ensures k in RangeKeys(c0, c1, r0, r1) <==>
      exists c: int, r: int | c0 as int <= c <= c1 && r0 <= r <= r1 :: k == KeyAt(c, r)
    decreases c1 - c0 as int
  {
    if c1 >= c0 as int {
      var init := RangeKeys(c0, c1 - 1, r0, r1);
      var col := ColumnKeys(c1 as char, r0, r1);
      assert RangeKeys(c0, c1, r0, r1) == init + col;
      RangeKeysCover(c0, c1 - 1, r0, r1, k);
      if k in col {
        var j :| 0 <= j < |col| && col[j] == k;
        assert k == KeyAt(c1, r0 + j);
        assert c0 as int <= c1 <= c1 && r0 <= r0 + j <= r1;
      }
      if exists c: int, r: int | c0 as int <= c <= c1 && r0 <= r <= r1 :: k == KeyAt(c, r) {
        var c: int, r: int :| c0 as int <= c <= c1 && r0 <= r <= r1 && k == KeyAt(c, r);
        if c == c1 {
          assert col[r - r0] == k;
        }
      }
    }
  }

  lemma {:induction false} ColumnPrefix(c: char, r0: int, row: int, r1: int)
    requires row <= r1
    ensures ColumnKeys(c, r0, row) <= ColumnKeys(c, r0, r1)
    decreases r1 - row
  {
    if row < r1 {
      ColumnPrefix(c, r0, row, r1 - 1);
    }
  }

  lemma {:induction false} RangePrefix(c0: char, col: int, c1: int, r0: int, r1: int)
    requires col <= c1 <= 'Z' as int
    ensures RangeKeys(c0, col, r0, r1) <= RangeKeys(c0, c1, r0, r1)
    decreases c1 - col
  {
    if col < c1 {
      RangePrefix(c0, col, c1 - 1, r0, r1);
    }
  }

  /** The cells a column-major walk has visited so far are a prefix of the range. */
  lemma {:induction false} WalkPrefix(c0: char, col: int, c1: int, r0: int, row: int, r1: int)
    requires c0 as int <= col <= c1 <= 'Z' as int && row <= r1
    ensures RangeKeys(c0, col - 1, r0, r1) + ColumnKeys(col as char, r0, row) <= RangeKeys(c0, c1, r0, r1)
  {
    ColumnPrefix(col as char, r0, row, r1);
    RangePrefix(c0, col, c1, r0, r1);
    assert RangeKeys(c0, col, r0, r1) == RangeKeys(c0, col - 1, r0, r1) + ColumnKeys(col as char, r0, r1);
  }

  /** The keys a column-major walk has visited up to column `col`, row `row`. */
  function Walked(c0: char, col: int, r0: int, row: int, r1: int): seq<string>
    requires c0 as int <= col <= 'Z' as int
  {
    RangeKeys(c0, col - 1, r0, r1) + ColumnKeys(col as char, r0, row)
  }

  /**
   * Reading the corners the way parseRange does (the letters and the digits
   * of each side of the colon) gives the range EvalRange walks.
   */
  lemma {:induction false} RangeWalkStart(store: Store, range: string, V: set<string>)
    requires IsRangeText(range)
    ensures var parts := SplitOn(range, ':');
      |parts| == 2 && RemoveDigits(parts[0]) != [] && RemoveDigits(parts[1]) != []
      && RemoveDigits(parts[0])[0] <= 'Z' && RemoveDigits(parts[1])[0] <= 'Z'
      && EvalRange(store, range, V) == EvalCells(store, RangeKeys(RemoveDigits(parts[0])[0],
           RemoveDigits(parts[1])[0] as int, DigitsValue(KeepDigits(parts[0])), DigitsValue(KeepDigits(parts[1]))), V)
  {
    RangeCorners(range);
    var parts := SplitOn(range, ':');
    ReferenceParts(parts[0]);
    ReferenceParts(parts[1]);
    assert IsUpper(CornerColumn(parts[0])) && IsUpper(CornerColumn(parts[1]));
  }

  /** A column's walk starts where the previous columns left off. */
  lemma {:induction false} WalkColumnStart(c0: char, col: int, r0: int, r1: int)
    requires c0 as int <= col <= 'Z' as int
    ensures Walked(c0, col, r0, r0 - 1, r1) == RangeKeys(c0, col - 1, r0, r1)
  {
    assert ColumnKeys(col as char, r0, r0 - 1) == [];
  }

  /** Leaving the column loop, the walk has covered the whole range. */
  lemma {:induction false} WalkRangeDone(c0: char, col: int, c1: int, r0: int, r1: int)
    requires c0 <= 'Z' && c1 <= 'Z' as int && col == if c1 < c0 as int then c0 as int else c1 + 1
    ensures RangeKeys(c0, col - 1, r0, r1) == RangeKeys(c0, c1, r0, r1)
  {
  }

  /** Finishing a column's rows completes the range up to that column. */
  lemma {:induction false} WalkColumnDone(c0: char, col: int, r0: int, row: int, r1: int)
    requires c0 as int <= col <= 'Z' as int && row == if r1 < r0 then r0 else r1 + 1
    ensures Walked(c0, col, r0, row - 1, r1) == RangeKeys(c0, col, r0, r1)
  {
  }

  /** The walk so far, extended by one cell, is still a prefix of the whole range. */
  lemma {:induction false} WalkExtends(c0: char, c1: int, col: int, r0: int, row: int, r1: int)
    requires c0 as int <= col <= c1 <= 'Z' as int && r0 <= row <= r1
    ensures Walked(c0, col, r0, row, r1) == Walked(c0, col, r0, row - 1, r1) + [KeyAt(col, row)]
    ensures var all := RangeKeys(c0, c1, r0, r1);
      |Walked(c0, col, r0, row, r1)| <= |all| && all[..|Walked(c0, col, r0, row, r1)|] == Walked(c0, col, r0, row, r1)
  {
    WalkPrefix(c0, col, c1, r0, row, r1);
  }

  /** One cell of the walk whose key is being evaluated fails the whole range as circular. */
  lemma {:induction false} WalkStepCircular(store: Store, c0: char, c1: int, col: int, r0: int, row: int, r1: int, V: set<string>, vs: seq<real>)
    requires c0 as int <= col <= c1 <= 'Z' as int && r0 <= row <= r1
    requires EvalCells(store, Walked(c0, col, r0, row - 1, r1), V) == Ok(vs)
    requires KeyAt(col, row) in V
    ensures EvalCells(store, RangeKeys(c0, c1, r0, r1), V) == Err(CircularReference(KeyAt(col, row)))
  {
    var after := Walked(c0, col, r0, row, r1);
    WalkExtends(c0, c1, col, r0, row, r1);
    CellsStep(store, Walked(c0, col, r0, row - 1, r1), KeyAt(col, row), V, vs);
    CellsPrefixError(store, RangeKeys(c0, c1, r0, r1), |after|, V);
  }

  /** One cell of the walk that fails to evaluate fails the whole range with its error. */
  lemma {:induction false} WalkStepFails(store: Store, c0: char, c1: int, col: int, r0: int, row: int, r1: int, V: set<string>, vs: seq<real>)
    requires c0 as int <= col <= c1 <= 'Z' as int && r0 <= row <= r1
    requires EvalCells(store, Walked(c0, col, r0, row - 1, r1), V) == Ok(vs)
    requires KeyAt(col, row) !in V && Eval(store, Display(store, KeyAt(col, row)), KeyAt(col, row), V).Err?
    ensures EvalCells(store, RangeKeys(c0, c1, r0, r1), V) == Err(Eval(store, Display(store, KeyAt(col, row)), KeyAt(col, row), V).error)
  {
    var after := Walked(c0, col, r0, row, r1);
    WalkExtends(c0, c1, col, r0, row, r1);
    CellsStep(store, Walked(c0, col, r0, row - 1, r1), KeyAt(col, row), V, vs);
    CellsPrefixError(store, RangeKeys(c0, c1, r0, r1), |after|, V);
  }

  /** One cell of the walk that evaluates extends the walk by its value. */
  lemma {:induction false} WalkStepValue(store: Store, c0: char, c1: int, col: int, r0: int, row: int, r1: int, V: set<string>, vs: seq<real>, v: real)
    requires c0 as int <= col <= c1 <= 'Z' as int && r0 <= row <= r1
    requires EvalCells(store, Walked(c0, col, r0, row - 1, r1), V) == Ok(vs)
    requires KeyAt(col, row) !in V && Eval(store, Display(store, KeyAt(col, row)), KeyAt(col, row), V) == Ok(v)
    ensures EvalCells(store, Walked(c0, col, r0, row, r1), V) == Ok(vs + [v])
  {
    WalkExtends(c0, c1, col, r0, row, r1);
    CellsStepValue(store, Walked(c0, col, r0, row - 1, r1), KeyAt(col, row), V, vs, v);
  }

}
