/**
 * A reference reading of an operator chain `v0 o1 v1 o2 v2 ...`: `*` and `/`
 * bind tighter than `+` and `-`, and operators of equal precedence group to
 * the left. The two-stack evaluator computes exactly this reading.
 */
module Grouping {
  import opened Wrappers
  import opened Errors
  import opened Formula

  predicate IsLow(c: char) { c == '+' || c == '-' }

  predicate IsHigh(c: char) { c == '*' || c == '/' }

  predicate IsChain(vs: seq<real>, os: seq<char>) {
    |vs| == |os| + 1 && forall j | 0 <= j < |os| :: IsLow(os[j]) || IsHigh(os[j])
  }

  /** `a op b`, the left operand first. */
  function Arith(a: real, op: char, b: real): (r: Result<real, EvalError>)
    requires IsLow(op) || IsHigh(op)
    ensures r.Err? <==> op == '/' && b == 0.0
    ensures r.Err? ==> r.error == DivisionByZero
  {
    match op
    case '+' => Ok(a + b)
    case '-' => Ok(a - b)
    case '*' => Ok(a * b)
    case '/' => if b == 0.0 then Err(DivisionByZero) else Ok(a / b)
  }

  /** Index of the last `+` or `-`, or -1. */
  function LastLow(os: seq<char>): (i: int)
    ensures -1 <= i < |os|
    ensures i >= 0 ==> IsLow(os[i])
    ensures forall j | i < j < |os| :: !IsLow(os[j])
    decreases |os|
  {
    if os == [] then -1
    else if IsLow(os[|os| - 1]) then |os| - 1
    else LastLow(os[..|os| - 1])
  }

  /** A product chain, grouped to the left: ((v0 o1 v1) o2 v2) ... */
  function Term(vs: seq<real>, os: seq<char>): (r: Result<real, EvalError>)
    requires IsChain(vs, os)
    ensures r.Err? ==> r.error == DivisionByZero
    decreases |os|
  {
    if os == [] then Ok(vs[0])
    else
      var t :- Term(vs[..|vs| - 1], os[..|os| - 1]);
      Arith(t, os[|os| - 1], vs[|vs| - 1])
  }

  /** One more factor extends a product chain by one operation. */
  lemma {:induction false} TermStep(vs: seq<real>, os: seq<char>, t: real)
    requires IsChain(vs, os) && os != [] && Term(vs[..|vs| - 1], os[..|os| - 1]) == Ok(t)
    ensures Term(vs, os) == Arith(t, os[|os| - 1], vs[|vs| - 1])
  {
  }

  /** A sum of products: split at the last `+` or `-`, the right side a product chain. */
  function Expr(vs: seq<real>, os: seq<char>): (r: Result<real, EvalError>)
    requires IsChain(vs, os)
    ensures r.Err? ==> r.error == DivisionByZero
    decreases |os|
  {
    var i := LastLow(os);
    if i < 0 then Term(vs, os)
    else
      var left :- Expr(vs[..i + 1], os[..i]);
      var right :- Term(vs[i + 1..], os[i + 1..]);
      Arith(left, os[i], right)
  }

  /** The chain as the token loop sees it. */
  function Interleave(vs: seq<real>, os: seq<char>): seq<Item>
    requires |vs| == |os| + 1
  {
    [Num(vs[0])] + Pairs(vs, os, 0)
  }

  /** The operator/operand pairs from position k on. */
  function Pairs(vs: seq<real>, os: seq<char>, k: nat): seq<Item>
    requires |vs| == |os| + 1 && k <= |os|
    decreases |os| - k
  {
    if k == |os| then [] else [Op(os[k]), Num(vs[k + 1])] + Pairs(vs, os, k + 1)
  }

  // ---------------------------------------------------------------------------
  // Division by a zero operand fails the whole chain.

  lemma {:induction false} TermZeroDivisor(vs: seq<real>, os: seq<char>, j: nat)
    requires IsChain(vs, os) && j < |os| && os[j] == '/' && vs[j + 1] == 0.0
    ensures Term(vs, os) == Err(DivisionByZero)
    decreases |os|
  {
    if j < |os| - 1 {
      TermZeroDivisor(vs[..|vs| - 1], os[..|os| - 1], j);
    }
  }

  lemma {:induction false} ExprZeroDivisor(vs: seq<real>, os: seq<char>, j: nat)
    requires IsChain(vs, os) && j < |os| && os[j] == '/' && vs[j + 1] == 0.0
    ensures Expr(vs, os) == Err(DivisionByZero)
    decreases |os|
  {
    var i := LastLow(os);
    if i < 0 {
      TermZeroDivisor(vs, os, j);
    } else if j < i {
      ExprZeroDivisor(vs[..i + 1], os[..i], j);
    } else {
      assert j > i;
      var right := Term(vs[i + 1..], os[i + 1..]);
      TermZeroDivisor(vs[i + 1..], os[i + 1..], j - i - 1);
    }
  }

  // ---------------------------------------------------------------------------
  // The stacks after the first k operator/operand pairs.

  /**
   * After `v0 o1 v1 ... ok vk` the operator stack is empty, one operator, or a
   * `+`/`-` under a `*`/`/`; the values beneath the top hold the prefix sum
   * and the pending product.
   */
  predicate Shape(vs: seq<real>, os: seq<char>, k: nat, st: Stacks)
    requires IsChain(vs, os) && k <= |os|
  {
    var i := LastLow(os[..k]);
    if k == 0 then
      st == Stacks([vs[0]], [])
    else if i < 0 then
      |st.values| == 2 && st.values[1] == vs[k] && st.ops == [os[k - 1]] &&
      Term(vs[..k], os[..k - 1]) == Ok(st.values[0])
    else if i == k - 1 then
      |st.values| == 2 && st.values[1] == vs[k] && st.ops == [os[k - 1]] &&
      Expr(vs[..k], os[..k - 1]) == Ok(st.values[0])
    else
      |st.values| == 3 && st.values[2] == vs[k] && st.ops == [os[i], os[k - 1]] &&
      Expr(vs[..i + 1], os[..i]) == Ok(st.values[0]) &&
      Term(vs[i + 1..k], os[i + 1..k - 1]) == Ok(st.values[1])
  }

  /** applyOperator with its operands in stack order is the usual reading. */
  lemma {:induction false} ApplyIsArith(op: char, b: real, a: real)
    requires IsLow(op) || IsHigh(op)
    ensures ApplyOperator(op, b, a) == Arith(a, op, b)
  {
  }

  lemma {:induction false} LastLowPrefix(os: seq<char>, k: nat)
    requires k < |os|
    ensures LastLow(os[..k + 1]) == if IsLow(os[k]) then k else LastLow(os[..k])
  {
    assert os[..k + 1][..k] == os[..k];
  }

  /** Processing the operator of pair k and then its operand keeps the shape, or fails on a zero divisor. */
  predicate StepsWell(vs: seq<real>, os: seq<char>, k: nat, st: Stacks)
    requires IsChain(vs, os) && k < |os|
  {
    var r := Step(Op(os[k]), st);
    (r.Ok? && Shape(vs, os, k + 1, Stacks(r.value.values + [vs[k + 1]], r.value.ops))) ||
    (r.Err? && r.error == DivisionByZero && Expr(vs, os) == Err(DivisionByZero))
  }

  lemma {:induction false} StepsWellFrom(vs: seq<real>, os: seq<char>, k: nat, st: Stacks, next: Stacks)
    requires IsChain(vs, os) && k < |os|
    requires Step(Op(os[k]), st) == Ok(next)
    requires Shape(vs, os, k + 1, Stacks(next.values + [vs[k + 1]], next.ops))
    ensures StepsWell(vs, os, k, st)
  {
  }

  lemma {:induction false} StepShape(vs: seq<real>, os: seq<char>, k: nat, st: Stacks)
    requires IsChain(vs, os) && k < |os| && Shape(vs, os, k, st)
    ensures StepsWell(vs, os, k, st)
  {
    var i := LastLow(os[..k]);
    if k == 0 {
      StepFromStart(vs, os, st);
    } else if i < 0 {
      StepFromProduct(vs, os, k, st);
    } else if i == k - 1 {
      StepFromSum(vs, os, k, st);
    } else {
      StepFromBoth(vs, os, k, st);
    }
  }

  lemma {:induction false} StepFromStart(vs: seq<real>, os: seq<char>, st: Stacks)
    requires IsChain(vs, os) && 0 < |os| && st == Stacks([vs[0]], [])
    ensures StepsWell(vs, os, 0, st)
  {
    LastLowPrefix(os, 0);
    assert Reduce(st, os[0]) == Ok(st);
    assert Expr(vs[..1], os[..0]) == Ok(vs[0]);
    assert Term(vs[..1], os[..0]) == Ok(vs[0]);
  }

  /** Only `*` and `/` so far: the pending product is applied first. */
  lemma {:induction false} StepFromProduct(vs: seq<real>, os: seq<char>, k: nat, st: Stacks)
    requires IsChain(vs, os) && 0 < k < |os| && LastLow(os[..k]) < 0
    requires |st.values| == 2 && st.values[1] == vs[k] && st.ops == [os[k - 1]]
    requires Term(vs[..k], os[..k - 1]) == Ok(st.values[0])
    ensures StepsWell(vs, os, k, st)
  {
    var o := os[k];
    LastLowPrefix(os, k);
    assert vs[..k + 1][..k] == vs[..k];
    var h := os[k - 1];
    var T := st.values[0];
    ApplyIsArith(h, vs[k], T);
    assert st.values == [T, vs[k]];
    assert os[..k][..k - 1] == os[..k - 1];
    assert Term(vs[..k + 1], os[..k]) == Arith(T, h, vs[k]);
    if h == '/' && vs[k] == 0.0 {
      ExprZeroDivisor(vs, os, k - 1);
    } else {
      var r := Arith(T, h, vs[k]).value;
      assert ApplyOperator(h, vs[k], T) == Ok(r);
      assert st.values[..0] + [r] == [r] && st.ops[..0] == [];
      assert ApplyTop(st) == Ok(Stacks([r], []));
      assert Reduce(st, o) == Ok(Stacks([r], []));
      assert Expr(vs[..k + 1], os[..k]) == Term(vs[..k + 1], os[..k]);
    }
  }

  /** A `+` or `-` was the last operator: it is applied by the next `+`/`-` only. */
  lemma {:induction false} StepFromSum(vs: seq<real>, os: seq<char>, k: nat, st: Stacks)
    requires IsChain(vs, os) && 0 < k < |os| && LastLow(os[..k]) == k - 1
    requires |st.values| == 2 && st.values[1] == vs[k] && st.ops == [os[k - 1]]
    requires Expr(vs[..k], os[..k - 1]) == Ok(st.values[0])
    ensures StepsWell(vs, os, k, st)
  {
    var o := os[k];
    LastLowPrefix(os, k);
    assert vs[..k + 1][..k] == vs[..k];
    assert os[..k + 1][..k] == os[..k];
    var l := os[k - 1];
    var A := st.values[0];
    ApplyIsArith(l, vs[k], A);
    assert st.values == [A, vs[k]];
    assert Term([vs[k]], []) == Ok(vs[k]);
    if IsLow(o) {
      var r := Arith(A, l, vs[k]).value;
      assert ApplyOperator(l, vs[k], A) == Ok(r);
      assert st.values[..0] + [r] == [r] && st.ops[..0] == [];
      assert ApplyTop(st) == Ok(Stacks([r], []));
      assert Reduce(st, o) == Ok(Stacks([r], []));
      assert vs[..k + 1][k..] == [vs[k]];
      assert os[..k][..k - 1] == os[..k - 1];
      assert os[..k][k..] == [];
      assert Expr(vs[..k + 1], os[..k]) == Ok(r);
    } else {
      assert Reduce(st, o) == Ok(st);
      assert vs[k..k + 1] == [vs[k]];
      assert os[k..k] == [];
    }
  }

  lemma {:induction false} ReduceBoth(A: real, T: real, v: real, l: char, h: char, o: char, r: real)
    requires IsLow(l) && IsHigh(h) && (IsLow(o) || IsHigh(o))
    requires ApplyOperator(h, v, T) == Ok(r)
    ensures IsLow(o) ==> Reduce(Stacks([A, T, v], [l, h]), o) == Ok(Stacks([A + (if l == '+' then r else -r)], []))
    ensures IsHigh(o) ==> Reduce(Stacks([A, T, v], [l, h]), o) == Ok(Stacks([A, r], [l]))
  {
    var st := Stacks([A, T, v], [l, h]);
    var mid := Stacks([A, r], [l]);
    assert st.values[..1] + [r] == [A, r] && st.ops[..1] == [l];
    assert ApplyTop(st) == Ok(mid);
    if IsLow(o) {
      var r2 := A + (if l == '+' then r else -r);
      assert mid.values[..0] + [r2] == [r2] && mid.ops[..0] == [];
      assert ApplyTop(mid) == Ok(Stacks([r2], []));
      assert Reduce(Stacks([r2], []), o) == Ok(Stacks([r2], []));
      assert Reduce(mid, o) == Ok(Stacks([r2], []));
    }
  }

  /** The token loop on operator `o` with a sum and a product pending. */
  lemma {:induction false} StepBoth(A: real, T: real, v: real, l: char, h: char, o: char, r: real)
    requires IsLow(l) && IsHigh(h) && (IsLow(o) || IsHigh(o))
    requires ApplyOperator(h, v, T) == Ok(r)
    ensures IsLow(o) ==> Step(Op(o), Stacks([A, T, v], [l, h])) == Ok(Stacks([A + (if l == '+' then r else -r)], [o]))
    ensures IsHigh(o) ==> Step(Op(o), Stacks([A, T, v], [l, h])) == Ok(Stacks([A, r], [l, o]))
  {
    ReduceBoth(A, T, v, l, h, o, r);
    var no: seq<char> := [];
    assert no + [o] == [o];
    assert [l] + [o] == [l, o];
  }

  lemma {:induction false} ExprAtLastLow(vs: seq<real>, os: seq<char>, i: nat, A: real, r: real)
    requires IsChain(vs, os) && LastLow(os) == i
    requires Expr(vs[..i + 1], os[..i]) == Ok(A) && Term(vs[i + 1..], os[i + 1..]) == Ok(r)
    ensures Expr(vs, os) == Arith(A, os[i], r)
  {
  }

  /** A `+`/`-` under a `*`/`/`: the product is applied, then the sum if `o` is `+`/`-`. */
  lemma {:induction false} StepFromBoth(vs: seq<real>, os: seq<char>, k: nat, st: Stacks)
    requires IsChain(vs, os) && 0 < k < |os|
    requires var i := LastLow(os[..k]);
      0 <= i < k - 1 &&
      |st.values| == 3 && st.values[2] == vs[k] && st.ops == [os[i], os[k - 1]] &&
      Expr(vs[..i + 1], os[..i]) == Ok(st.values[0]) &&
      Term(vs[i + 1..k], os[i + 1..k - 1]) == Ok(st.values[1])
    ensures StepsWell(vs, os, k, st)
  {
    var i := LastLow(os[..k]);
    var h := os[k - 1];
    var T := st.values[1];
    var ts, tos := vs[i + 1..k + 1], os[i + 1..k];
    assert ts[..|ts| - 1] == vs[i + 1..k];
    assert tos[..|tos| - 1] == os[i + 1..k - 1];
    TermStep(ts, tos, T);
    ApplyIsArith(h, vs[k], T);
    if h == '/' && vs[k] == 0.0 {
      StepFromBothByZero(vs, os, k, i, st);
    } else {
      StepFromBothApplied(vs, os, k, i, st, Arith(T, h, vs[k]).value);
    }
  }

  /** A `/` by zero under a pending sum: the step fails, and so does the whole chain. */
  lemma {:induction false} StepFromBothByZero(vs: seq<real>, os: seq<char>, k: nat, i: nat, st: Stacks)
    requires IsChain(vs, os) && 0 < k < |os| && i < k - 1
    requires |st.values| == 3 && st.values[2] == vs[k] && st.ops == [os[i], os[k - 1]]
    requires os[k - 1] == '/' && vs[k] == 0.0
    ensures StepsWell(vs, os, k, st)
  {
    assert st == Stacks([st.values[0], st.values[1], vs[k]], [os[i], '/']);
    ExprZeroDivisor(vs, os, k - 1);
  }

  lemma {:induction false} StepFromBothApplied(vs: seq<real>, os: seq<char>, k: nat, i: nat, st: Stacks, r: real)
    requires IsChain(vs, os) && 0 < k < |os| && i == LastLow(os[..k]) && i < k - 1
    requires |st.values| == 3 && st.values[2] == vs[k] && st.ops == [os[i], os[k - 1]]
    requires Expr(vs[..i + 1], os[..i]) == Ok(st.values[0])
    requires Term(vs[i + 1..k + 1], os[i + 1..k]) == Ok(r)
    requires ApplyOperator(os[k - 1], vs[k], st.values[1]) == Ok(r)
    ensures StepsWell(vs, os, k, st)
  {
    if IsLow(os[k]) {
      StepLowAfterBoth(vs, os, k, i, st, r);
    } else {
      StepHighAfterBoth(vs, os, k, i, st, r);
    }
  }

  /** A `+`/`-` after a sum and a product: both are applied and the sum so far is complete. */
  lemma {:induction false} StepLowAfterBoth(vs: seq<real>, os: seq<char>, k: nat, i: nat, st: Stacks, r: real)
    requires IsChain(vs, os) && 0 < k < |os| && i == LastLow(os[..k]) && i < k - 1 && IsLow(os[k])
    requires |st.values| == 3 && st.values[2] == vs[k] && st.ops == [os[i], os[k - 1]]
    requires Expr(vs[..i + 1], os[..i]) == Ok(st.values[0])
    requires Term(vs[i + 1..k + 1], os[i + 1..k]) == Ok(r)
    requires ApplyOperator(os[k - 1], vs[k], st.values[1]) == Ok(r)
    ensures StepsWell(vs, os, k, st)
  {
    var o := os[k];
    var l := os[i];
    var A := st.values[0];
    assert st == Stacks([A, st.values[1], vs[k]], [l, os[k - 1]]);
    StepBoth(A, st.values[1], vs[k], l, os[k - 1], o, r);
    var sum := A + (if l == '+' then r else -r);
    ExprOfPrefix(vs, os, k, i, A, r);
    ShapeAfterLow(vs, os, k, sum);
    assert [sum] + [vs[k + 1]] == [sum, vs[k + 1]];
    StepsWellFrom(vs, os, k, st, Stacks([sum], [o]));
  }

  /** After a `+`/`-` the stacks hold the sum so far, the next operand and that operator. */
  lemma {:induction false} ShapeAfterLow(vs: seq<real>, os: seq<char>, k: nat, x: real)
    requires IsChain(vs, os) && k < |os| && IsLow(os[k])
    requires Expr(vs[..k + 1], os[..k]) == Ok(x)
    ensures Shape(vs, os, k + 1, Stacks([x, vs[k + 1]], [os[k]]))
  {
    LastLowPrefix(os, k);
  }

  /** The chain up to pair k splits at its last `+`/`-`, at i. */
  lemma {:induction false} ExprOfPrefix(vs: seq<real>, os: seq<char>, k: nat, i: nat, A: real, r: real)
    requires IsChain(vs, os) && k < |os| && i == LastLow(os[..k]) && i < k
    requires Expr(vs[..i + 1], os[..i]) == Ok(A) && Term(vs[i + 1..k + 1], os[i + 1..k]) == Ok(r)
    ensures Expr(vs[..k + 1], os[..k]) == Arith(A, os[i], r)
  {
    var pv, po := vs[..k + 1], os[..k];
    assert pv[..i + 1] == vs[..i + 1];
    assert po[..i] == os[..i];
    assert pv[i + 1..] == vs[i + 1..k + 1];
    assert po[i + 1..] == os[i + 1..k];
    ExprAtLastLow(pv, po, i, A, r);
  }

  /** A `*`/`/` after a sum and a product: the product is applied and a new one begins. */
  lemma {:induction false} StepHighAfterBoth(vs: seq<real>, os: seq<char>, k: nat, i: nat, st: Stacks, r: real)
    requires IsChain(vs, os) && 0 < k < |os| && i == LastLow(os[..k]) && i < k - 1 && !IsLow(os[k])
    requires |st.values| == 3 && st.values[2] == vs[k] && st.ops == [os[i], os[k - 1]]
    requires Expr(vs[..i + 1], os[..i]) == Ok(st.values[0])
    requires Term(vs[i + 1..k + 1], os[i + 1..k]) == Ok(r)
    requires ApplyOperator(os[k - 1], vs[k], st.values[1]) == Ok(r)
    ensures StepsWell(vs, os, k, st)
  {
    var o := os[k];
    LastLowPrefix(os, k);
    var l := os[i];
    var A := st.values[0];
    assert st == Stacks([A, st.values[1], vs[k]], [l, os[k - 1]]);
    assert IsHigh(o);
    StepBoth(A, st.values[1], vs[k], l, os[k - 1], o, r);
    assert [A, r] + [vs[k + 1]] == [A, r, vs[k + 1]];
    assert Shape(vs, os, k + 1, Stacks([A, r, vs[k + 1]], [l, o]));
    StepsWellFrom(vs, os, k, st, Stacks([A, r], [l, o]));
  }

  // ---------------------------------------------------------------------------
  // The final loop, and the whole run.

  lemma {:induction false} FinishShape(vs: seq<real>, os: seq<char>, st: Stacks)
    requires IsChain(vs, os) && Shape(vs, os, |os|, st)
    ensures Finish(st) == Expr(vs, os)
  {
    var k := |os|;
    assert os[..k] == os;
    assert vs[..k + 1] == vs;
    var i := LastLow(os);
    if k == 0 {
      assert Finish(st) == Ok(vs[0]);
    } else if i < 0 {
      FinishProduct(vs, os, st);
    } else if i == k - 1 {
      FinishSum(vs, os, st);
    } else {
      FinishBoth(vs, os, st);
    }
  }

  lemma {:induction false} FinishProduct(vs: seq<real>, os: seq<char>, st: Stacks)
    requires IsChain(vs, os) && |os| > 0 && LastLow(os) < 0
    requires var k := |os|;
      |st.values| == 2 && st.values[1] == vs[k] && st.ops == [os[k - 1]] &&
      Term(vs[..k], os[..k - 1]) == Ok(st.values[0])
    ensures Finish(st) == Expr(vs, os)
  {
    var k := |os|;
    var T := st.values[0];
    ApplyIsArith(os[k - 1], vs[k], T);
    assert st.values[..0] == [] && st.ops[..0] == [];
    assert Term(vs, os) == Arith(T, os[k - 1], vs[k]);
  }

  lemma {:induction false} FinishSum(vs: seq<real>, os: seq<char>, st: Stacks)
    requires IsChain(vs, os) && |os| > 0 && LastLow(os) == |os| - 1
    requires var k := |os|;
      |st.values| == 2 && st.values[1] == vs[k] && st.ops == [os[k - 1]] &&
      Expr(vs[..k], os[..k - 1]) == Ok(st.values[0])
    ensures Finish(st) == Expr(vs, os)
  {
    var k := |os|;
    var A := st.values[0];
    ApplyIsArith(os[k - 1], vs[k], A);
    assert st.values[..0] == [] && st.ops[..0] == [];
    assert vs[k..] == [vs[k]] && os[k..] == [];
    assert Term([vs[k]], []) == Ok(vs[k]);
  }

  lemma {:induction false} FinishBoth(vs: seq<real>, os: seq<char>, st: Stacks)
    requires IsChain(vs, os) && |os| > 0
    requires var k := |os|; var i := LastLow(os);
      0 <= i < k - 1 &&
      |st.values| == 3 && st.values[2] == vs[k] && st.ops == [os[i], os[k - 1]] &&
      Expr(vs[..i + 1], os[..i]) == Ok(st.values[0]) &&
      Term(vs[i + 1..k], os[i + 1..k - 1]) == Ok(st.values[1])
    ensures Finish(st) == Expr(vs, os)
  {
    var k := |os|;
    var i := LastLow(os);
    var T := st.values[1];
    var h := os[k - 1];
    ApplyIsArith(h, vs[k], T);
    var ts, tos := vs[i + 1..], os[i + 1..];
    assert ts[..|ts| - 1] == vs[i + 1..k];
    assert tos[..|tos| - 1] == os[i + 1..k - 1];
    TermStep(ts, tos, T);
    assert st == Stacks([st.values[0], T, vs[k]], [os[i], h]);
    if !(h == '/' && vs[k] == 0.0) {
      FinishBothApplied(vs, os, i, st.values[0], T, Arith(T, h, vs[k]).value);
    }
  }

  lemma {:induction false} FinishTwo(A: real, T: real, v: real, l: char, h: char, r: real)
    requires ApplyOperator(h, v, T) == Ok(r)
    ensures Finish(Stacks([A, T, v], [l, h])) == ApplyOperator(l, r, A)
  {
    var st := Stacks([A, T, v], [l, h]);
    var mid := Stacks([A, r], [l]);
    assert st.values[..1] + [r] == [A, r] && st.ops[..1] == [l];
    assert ApplyTop(st) == Ok(mid);
    assert mid.values[..0] == [] && mid.ops[..0] == [];
    match ApplyOperator(l, r, A)
    case Err(e) =>
    case Ok(r2) =>
      assert mid.values[..0] + [r2] == [r2];
      assert ApplyTop(mid) == Ok(Stacks([r2], []));
      assert Finish(Stacks([r2], [])) == Ok(r2);
      assert Finish(mid) == Ok(r2);
  }

  lemma {:induction false} FinishBothApplied(vs: seq<real>, os: seq<char>, i: nat, A: real, T: real, r: real)
    requires IsChain(vs, os) && i == LastLow(os) && i < |os| - 1
    requires Expr(vs[..i + 1], os[..i]) == Ok(A) && Term(vs[i + 1..], os[i + 1..]) == Ok(r)
    requires ApplyOperator(os[|os| - 1], vs[|os|], T) == Ok(r)
    ensures Finish(Stacks([A, T, vs[|os|]], [os[i], os[|os| - 1]])) == Expr(vs, os)
  {
    FinishTwo(A, T, vs[|os|], os[i], os[|os| - 1], r);
    ApplyIsArith(os[i], r, A);
    ExprAtLastLow(vs, os, i, A, r);
  }

  lemma {:induction false} RunPair(o: char, v: real, rest: seq<Item>, st: Stacks)
    ensures var r := Step(Op(o), st);
      RunItems([Op(o), Num(v)] + rest, st) ==
      if r.Err? then Err(r.error) else RunItems(rest, Stacks(r.value.values + [v], r.value.ops))
  {
    var items := [Op(o), Num(v)] + rest;
    assert items[1..] == [Num(v)] + rest;
    assert items[1..][1..] == rest;
  }

  lemma {:induction false} RunFrom(vs: seq<real>, os: seq<char>, k: nat, st: Stacks)
    requires IsChain(vs, os) && k <= |os| && Shape(vs, os, k, st)
    ensures RunItems(Pairs(vs, os, k), st) == Expr(vs, os)
    decreases |os| - k
  {
    if k == |os| {
      FinishShape(vs, os, st);
    } else {
      StepShape(vs, os, k, st);
      RunPair(os[k], vs[k + 1], Pairs(vs, os, k + 1), st);
      var r := Step(Op(os[k]), st);
      if r.Ok? {
        RunFrom(vs, os, k + 1, Stacks(r.value.values + [vs[k + 1]], r.value.ops));
      }
    }
  }

  /**
   * The token loop over a well-formed chain computes the precedence reading:
   * `*` and `/` before `+` and `-`, equal precedence grouped to the left, the
   * value popped first being the right operand.
   */
  lemma {:induction false} StacksFollowPrecedence(vs: seq<real>, os: seq<char>)
    requires IsChain(vs, os)
    ensures RunItems(Interleave(vs, os), Empty) == Expr(vs, os)
  {
    var items := Interleave(vs, os);
    assert items[1..] == Pairs(vs, os, 0);
    assert items[0] == Num(vs[0]);
    assert Empty.values + [vs[0]] == [vs[0]];
    assert Step(items[0], Empty) == Ok(Stacks([vs[0]], []));
    RunFrom(vs, os, 0, Stacks([vs[0]], []));
  }
}
