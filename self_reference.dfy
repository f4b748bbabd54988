/**
 * A formula whose scanned tokens include its own key always fails to
 * evaluate under that key. This is the only case the dependency index ever
 * asks updateDependentCells to recompute, so propagation never succeeds.
 */
module SelfReference {
  import opened Wrappers
  import opened Text
  import opened Decimal
  import opened Errors
  import opened Formula
  import opened Evaluation
  import opened EvaluationFacts
  import opened Dependencies

  /** Every character of a reference is an upper-case letter or a digit. */
  lemma {:induction false} ReferenceChars(t: string, k: nat)
    requires IsReference(t) && k < |t|
    ensures IsUpper(t[k]) || IsDigit(t[k])
  {
    var n := LeadingUpper(t);
    if k >= n {
      assert t[k] == t[n..][k - n];
    }
  }

  /** Every character of an accepted argument is a digit, a letter, '.' or ':'. */
  lemma {:induction false} AcceptedChars(p: string, k: nat)
    requires (IsDecimalNumeral(p) || IsRangeText(p)) && k < |p|
    ensures IsDigit(p[k]) || IsUpper(p[k]) || p[k] == '.' || p[k] == ':'
  {
    if IsDecimalNumeral(p) {
      if !AllDigits(p) {
        var dot := IndexOfAny(p, {'.'});
        if k < dot {
          assert p[k] == p[..dot][k];
        } else if k > dot {
          assert p[k] == p[dot + 1..][k - dot - 1];
        }
      }
    } else {
      var i := IndexOfAny(p, {':'});
      if k < i {
        assert p[k] == p[..i][k];
        ReferenceChars(p[..i], k);
      } else if k > i {
        assert p[k] == p[i + 1..][k - i - 1];
        ReferenceChars(p[i + 1..], k - i - 1);
      }
    }
  }

  lemma {:induction false} ReferenceEndsInDigit(t: string)
    requires IsReference(t)
    ensures IsDigit(t[|t| - 1])
  {
    var n := LeadingUpper(t);
    assert t[|t| - 1] == t[n..][|t| - 1 - n];
  }

  /** A reference is neither a decimal nor a range. */
  lemma {:induction false} ReferenceNotAccepted(t: string)
    requires IsReference(t)
    ensures !IsDecimalNumeral(t) && !IsRangeText(t)
  {
    assert IsUpper(t[0]);
    if IsDecimalNumeral(t) {
      var dot := IndexOfAny(t, {'.'});
      assert !AllDigits(t);
      assert dot >= 0;
      ReferenceChars(t, dot);
    }
    ReferenceHasNoColon(t);
  }

  /** A function call's text cuts into its name, "(", its arguments' tokens and ")". */
  lemma {:induction false} CallTokens(name: string, inner: string)
    requires name != [] && forall i | 0 <= i < |name| :: name[i] !in RefDelims
    ensures Split(name + "(" + inner + ")", RefDelims) == [name, "("] + Split(inner, RefDelims) + [")"]
  {
    var rest := "(" + inner + ")";
    ParenthesisedTokens(inner);
    SplitConcat(name, rest, RefDelims);
    SplitOfRun(name, RefDelims);
    Regroup(name, "(", inner, ")");
    Regroup([name], ["("], Split(inner, RefDelims), [")"]);
    assert [name] + ["("] == [name, "("];
  }

  /** Parentheses around a text are tokens of their own around the text's tokens. */
  lemma {:induction false} ParenthesisedTokens(inner: string)
    ensures Split("(" + inner + ")", RefDelims) == ["("] + Split(inner, RefDelims) + [")"]
  {
    var close: string := ")";
    var open: string := "(";
    assert IsPiece(close, RefDelims) && IsPiece(open, RefDelims);
    PieceSplit(close, RefDelims);
    PieceSplit(open, RefDelims);
    var tail := inner + close;
    SplitConcat(inner, close, RefDelims);
    SplitConcat(open, tail, RefDelims);
    assert open + inner + close == open + tail;
    assert [open] + (Split(inner, RefDelims) + [close]) == [open] + Split(inner, RefDelims) + [close];
  }

  /** Aggregate names hold neither a delimiter nor a digit. */
  lemma {:induction false} NameShape(agg: Aggregate)
    ensures Name(agg) != []
    ensures forall i | 0 <= i < |Name(agg)| :: Name(agg)[i] !in RefDelims && IsUpper(Name(agg)[i])
  {
  }

  lemma {:induction false} TrimKeepsChar(s: string, c: char)
    requires c in s && !IsSpace(c)
    ensures c in Trim(s)
  {
    var i :| 0 <= i < |s| && s[i] == c;
    TrimKeeps(s, i);
  }

  lemma {:induction false} SplitOnKeepsChar(s: string, sep: char, c: char)
    requires c in s && c != sep
    ensures exists p | p in SplitOn(s, sep) :: c in p
  {
    var i :| 0 <= i < |s| && s[i] == c;
    SplitOnCovers(s, sep, i);
  }

  lemma {:induction false} DelimiterRejected(p: string, d: char)
    requires d in p && d in RefDelims
    ensures !IsDecimalNumeral(p) && !IsRangeText(p)
  {
    var u :| 0 <= u < |p| && p[u] == d;
    if IsDecimalNumeral(p) || IsRangeText(p) {
      AcceptedChars(p, u);
    }
  }

  /** Some argument is rejected when the argument text holds a delimiter. */
  lemma {:induction false} DelimiterInArguments(inner: string, d: char)
    requires d in inner && d in RefDelims
    ensures exists p | p in SplitOn(Trim(inner), ',') :: !IsDecimalNumeral(Trim(p)) && !IsRangeText(Trim(p))
  {
    TrimKeepsChar(inner, d);
    SplitOnKeepsChar(Trim(inner), ',', d);
    var p :| p in SplitOn(Trim(inner), ',') && d in p;
    TrimKeepsChar(p, d);
    DelimiterRejected(Trim(p), d);
  }

  /** A reference as the whole argument text is one argument, and a rejected one. */
  lemma {:induction false} ReferenceAsArguments(K: string)
    requires IsReference(K)
    ensures SplitOn(Trim(K), ',') == [K]
    ensures !IsDecimalNumeral(Trim(K)) && !IsRangeText(Trim(K))
  {
    assert IsUpper(K[0]);
    ReferenceChars(K, |K| - 1);
    TrimNoop(K);
    assert ',' !in K by {
      forall k | 0 <= k < |K| ensures K[k] != ',' { ReferenceChars(K, k); }
    }
    ReferenceNotAccepted(K);
  }

  /**
   * A reference among the argument tokens leaves some comma-separated
   * argument that is neither a decimal nor a range.
   */
  lemma {:induction false} ReferenceInArguments(inner: string, K: string)
    requires K in Split(inner, RefDelims) && IsReference(K)
    ensures exists p | p in SplitOn(Trim(inner), ',') :: !IsDecimalNumeral(Trim(p)) && !IsRangeText(Trim(p))
  {
    if exists i | 0 <= i < |inner| :: inner[i] in RefDelims {
      var i :| 0 <= i < |inner| && inner[i] in RefDelims;
      DelimiterInArguments(inner, inner[i]);
    } else {
      assert inner != [];
      SplitOfRun(inner, RefDelims);
      ReferenceAsArguments(K);
      assert K in SplitOn(Trim(K), ',');
    }
  }

  /** A text that starts with `NAME(` and ends with `)` is `NAME(inner)`. */
  lemma {:induction false} CallShape(body: string, name: string)
    requires StartsWith(body, name + "(") && EndsWith(body, ")")
    ensures |name| + 1 <= |body| - 1
    ensures body == name + "(" + body[|name| + 1..|body| - 1] + ")"
  {
    var open := name + "(";
    var n := |open|;
    assert body[n - 1] == open[n - 1] == '(';
    assert body[|body| - 1] == ')';
    assert body == body[..n] + body[n..|body| - 1] + body[|body| - 1..];
  }

  /** A reference among a call's tokens lies among its arguments' tokens. */
  lemma {:induction false} ReferenceInCall(agg: Aggregate, inner: string, K: string)
    requires K in Split(Name(agg) + "(" + inner + ")", RefDelims) && IsReference(K)
    ensures K in Split(inner, RefDelims)
  {
    var name := Name(agg);
    NameShape(agg);
    CallTokens(name, inner);
    assert K != name by {
      ReferenceEndsInDigit(K);
      assert IsUpper(name[|name| - 1]);
    }
    assert K != "(" && K != ")" by {
      assert IsUpper(K[0]);
    }
  }

  /** A function formula with a reference among its tokens fails. */
  lemma {:induction false} FunctionSelfReference(store: Store, body: string, agg: Aggregate, V: set<string>, K: string)
    requires K in Split(body, RefDelims) && IsReference(K)
    ensures EvalFunction(store, body, agg, V).Err?
  {
    var ex := ExtractRange(body, Name(agg));
    if ex.Ok? {
      CallShape(body, Name(agg));
      var inner := body[|Name(agg)| + 1..|body| - 1];
      assert ex.value == Trim(inner);
      ReferenceInCall(agg, inner, K);
      ReferenceInArguments(inner, K);
      var parts := SplitOn(ex.value, ',');
      ArgsAccepted(store, parts, V);
    }
  }

  /** An arithmetic formula mentioning a key under evaluation fails. */
  lemma {:induction false} ArithmeticSelfReference(store: Store, body: string, key: string, V: set<string>)
    requires key in V && IsReference(key) && RefKey(key) == key
    requires key in Split(body, RefDelims)
    requires forall i | 0 <= i < |body| :: body[i] !in {'(', ')'}
    ensures RunTokens(store, Tokenize(body, ArithDelims), V, Empty).Err?
  {
    assert RefDelims == ArithDelims + {'(', ')'};
    SplitIgnoresAbsent(body, ArithDelims, {'(', ')'});
    assert body != [];
    var tokens := Tokenize(body, ArithDelims);
    var j :| 0 <= j < |tokens| && tokens[j] == key;
    ReferenceToVisited(store, key, V);
    FailingTokenFails(store, tokens, V, Empty, j);
  }

  /** The body of a formula that mentions its own key fails with that key marked visited. */
  lemma {:induction false} BodySelfReference(store: Store, content: string, key: string, V: set<string>)
    requires IsFormula(content) && key in Split(content[1..], RefDelims)
    requires key in V && IsReference(key) && RefKey(key) == key
    ensures EvalBody(store, content, V).Err?
  {
    var body := content[1..];
    if StartsWith(body, "MAX(") {
      FunctionSelfReference(store, body, Max, V, key);
    } else if StartsWith(body, "MIN(") {
      FunctionSelfReference(store, body, Min, V, key);
    } else if StartsWith(body, "SUM(") {
      FunctionSelfReference(store, body, Sum, V, key);
    } else if StartsWith(body, "AVERAGE(") {
      FunctionSelfReference(store, body, Average, V, key);
    } else {
      assert body != "";
      if exists i | 0 <= i < |body| :: body[i] in {'(', ')'} {
        var i :| 0 <= i < |body| && body[i] in {'(', ')'};
        StrayTokenFails(store, body, V, i);
      } else {
        ArithmeticSelfReference(store, body, key, V);
      }
    }
  }

  /**
   * A formula whose own scanned tokens include its key fails when evaluated
   * under that key: through the circular reference, or earlier through an
   * invalid token or argument.
   */
  lemma {:induction false} SelfReferenceFails(store: Store, content: string, key: string, V: set<string>)
    requires key in ScannedTokens(content) && IsReference(key) && RefKey(key) == key
    ensures Eval(store, content, key, V).Err?
  {
    if key !in V {
      assert IsFormula(content);
      assert content[1..] != "";
      BodySelfReference(store, content, key, V + {key});
    }
  }
}
