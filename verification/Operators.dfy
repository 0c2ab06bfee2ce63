/** What the operators of the evaluator mean.

    The other modules compare one evaluation with another, so none of them depends on what
    an operator computes.  Here every operator is tied to the arithmetic, the order or the
    list operation it stands for, on both machines, and matching to construction.
 */
module Operators {
  import opened Ir
  import opened Semantics
  import BoundedNat

  // ---- powers and shifts ----

  /** The laws that make `Power` the power: the empty product, one factor, and splitting. */
  lemma {:induction false} PowerLaws(a: nat, m: nat, n: nat)
    ensures Power(a, 0) == 1 && Power(a, 1) == a
    ensures Power(a, m + n) == Power(a, m) * Power(a, n)
    decreases n
  {
    assert Power(a, 1) == a * Power(a, 0);
    if n > 0 {
      PowerLaws(a, m, n - 1);
      var p, q := Power(a, m), Power(a, n - 1);
      assert Power(a, m + n) == a * Power(a, m + n - 1);
      assert a * (p * q) == p * (a * q);
    }
  }

  /** Halving `b` times is the quotient by `2^b`. */
  lemma {:induction false} ShiftDivides(a: nat, b: nat)
    ensures Shifted(a, b) * Power(2, b) <= a < (Shifted(a, b) + 1) * Power(2, b)
  {
    if b > 0 {
      ShiftDivides(a, b - 1);
      HalfOnce(a, Shifted(a, b - 1), Power(2, b - 1));
    }
  }

  lemma HalfOnce(a: nat, q: nat, p: nat)
    requires q * p <= a < (q + 1) * p
    ensures (q / 2) * (2 * p) <= a < (q / 2 + 1) * (2 * p)
  {
    var h := q / 2;
    assert 2 * h <= q <= 2 * h + 1;
    assert h * (2 * p) == (2 * h) * p && (h + 1) * (2 * p) == (2 * h + 2) * p;
    Scaled(2 * h, q, p);
    Scaled(q + 1, 2 * h + 2, p);
  }

  lemma Scaled(x: nat, y: nat, p: nat)
    requires x <= y
    ensures x * p <= y * p
  {
    assert y * p == x * p + (y - x) * p;
  }

  // ---- two naturals ----

  /** The natural `r`, or this error where the machine has no room for it. */
  predicate Checks(r: nat, bounded: bool, error: ComputeError, o: Outcome) {
    if bounded && r >= U64 then o == Err(error) else o == Ok(Nat(r))
  }

  function Times(b: nat, q: nat): nat {
    b * q
  }

  /** Taking multiples of `b` from `a` leaves `r`. */
  ghost predicate Leaves(a: nat, b: nat, r: nat) {
    r < b && exists q: nat :: Times(b, q) + r == a
  }

  /** What a binary operator on two naturals owes; subtraction, quotient and remainder are
      total.  A machine word shifted left loses the bits past 64. */
  ghost predicate Means(op: Op, a: nat, b: nat, bounded: bool, o: Outcome) {
    match op
    case Add => Checks(a + b, bounded, AddOverflow, o)
    case Mul => Checks(a * b, bounded, MulOverflow, o)
    case Pow =>
      if bounded && b >= U32 then o == Err(PowExponentTooLarge) else Checks(Power(a, b), bounded, PowOverflow, o)
    case Shl =>
      if bounded && b >= U32 then o == Err(ShiftExponentTooLarge)
      else if bounded && b >= 64 then o == Err(ShiftOverflow)
      else
        && o.Ok? && o.value.Nat?
        && (if bounded then Leaves(a * Power(2, b), U64, o.value.n) else o.value.n == a * Power(2, b))
    case Sub => o.Ok? && o.value.Nat? && (if b <= a then o.value.n + b == a else o.value.n == 0)
    case Div =>
      o.Ok? && o.value.Nat? && (if b == 0 then o.value.n == 0 else o.value.n * b <= a < (o.value.n + 1) * b)
    case Mod => o.Ok? && o.value.Nat? && (if b == 0 then o.value.n == a else Leaves(a, b, o.value.n))
    case Shr => o.Ok? && o.value.Nat? && o.value.n * Power(2, b) <= a < (o.value.n + 1) * Power(2, b)
    case Eq => o == Ok(Bool(a == b))
    case Lt => o == Ok(Bool(a < b))
    case Le => o == Ok(Bool(!(b < a)))
    case Gt => o == Ok(Bool(b < a))
    case _ => o == Stuck
  }

  /** Both machines compute what the operators mean; the bounded one is given words. */
  lemma ArithMeans(op: Op, a: nat, b: nat, bounded: bool)
    requires bounded ==> a < U64 && b < U64
    ensures Means(op, a, b, bounded, Arith(op, a, b, bounded))
  {
    match op
    case Shl => LeftMeans(a, b, bounded);
    case Shr => ShiftMeans(a, b, bounded);
    case Div => QuotientMeans(a, b, bounded);
    case Mod => RemainderMeans(a, b, bounded);
    case _ => OthersMean(op, a, b, bounded);
  }

  lemma OthersMean(op: Op, a: nat, b: nat, bounded: bool)
    requires !op.Shl? && !op.Shr? && !op.Div? && !op.Mod?
    ensures Means(op, a, b, bounded, Arith(op, a, b, bounded))
  {}

  lemma LeftMeans(a: nat, b: nat, bounded: bool)
    ensures Means(Shl, a, b, bounded, Arith(Shl, a, b, bounded))
  {
    RemainderLeft(a * Power(2, b), U64);
  }

  lemma QuotientMeans(a: nat, b: nat, bounded: bool)
    ensures Means(Div, a, b, bounded, Arith(Div, a, b, bounded))
  {
    if b > 0 {
      QuotientBounds(a, b);
    }
  }

  lemma RemainderMeans(a: nat, b: nat, bounded: bool)
    ensures Means(Mod, a, b, bounded, Arith(Mod, a, b, bounded))
  {
    if b > 0 {
      RemainderLeft(a, b);
    }
  }

  lemma ShiftMeans(a: nat, b: nat, bounded: bool)
    requires bounded ==> a < U64 && b < U64
    ensures Arith(Shr, a, b, bounded) == Ok(Nat(Shifted(a, b)))
    ensures Shifted(a, b) * Power(2, b) <= a < (Shifted(a, b) + 1) * Power(2, b)
  {
    ShiftDivides(a, b);
    if bounded && b >= 64 {
      BoundedNat.ShiftedFits(a, b);
    }
  }

  lemma QuotientBounds(a: nat, b: nat)
    requires b > 0
    ensures (a / b) * b <= a < (a / b + 1) * b
  {
    assert a == b * (a / b) + a % b;
  }

  lemma RemainderLeft(a: nat, b: nat)
    requires b > 0
    ensures Leaves(a, b, a % b)
  {
    assert Times(b, a / b) + a % b == a;
  }

  /** The laws leave no choice. */
  lemma MeansOne(op: Op, a: nat, b: nat, bounded: bool, o: Outcome, o': Outcome)
    requires bounded ==> a < U64 && b < U64
    requires Means(op, a, b, bounded, o) && Means(op, a, b, bounded, o')
    ensures o == o'
  {
    if op.Div? && b > 0 {
      OneQuotient(a, b, o.value.n, o'.value.n);
    } else if op.Shr? {
      OneQuotient(a, Power(2, b), o.value.n, o'.value.n);
    } else if op.Mod? && b > 0 {
      OneRemainder(a, b, o.value.n, o'.value.n);
    } else if op.Shl? && o.Ok? && bounded {
      OneRemainder(a * Power(2, b), U64, o.value.n, o'.value.n);
    }
  }

  lemma OneQuotient(a: nat, p: nat, q: nat, q': nat)
    requires q * p <= a < (q + 1) * p && q' * p <= a < (q' + 1) * p
    ensures q == q'
  {
    if q < q' {
      Scaled(q + 1, q', p);
    } else if q' < q {
      Scaled(q' + 1, q, p);
    }
  }

  lemma OneRemainder(a: nat, b: nat, r: nat, r': nat)
    requires Leaves(a, b, r) && Leaves(a, b, r')
    ensures r == r'
  {
    var q: nat :| Times(b, q) + r == a;
    var q': nat :| Times(b, q') + r' == a;
    assert (q + 1) * b == q * b + b && (q' + 1) * b == q' * b + b;
    OneQuotient(a, b, q, q');
  }

  // ---- in the evaluator ----

  lemma EvalPair(m: Machine, calls: nat, jumps: nat, actuals: seq<Value>, e: Expr, f: Expr, env: Env, js: Joins)
    requires Eval(m, calls, jumps, actuals, e, env, js).Ok? && Eval(m, calls, jumps, actuals, f, env, js).Ok?
    ensures EvalAll(m, calls, jumps, actuals, Cons(e, Cons(f, Nil)), env, js)
         == Oks([Eval(m, calls, jumps, actuals, e, env, js).value, Eval(m, calls, jumps, actuals, f, env, js).value])
  {
    var u := Eval(m, calls, jumps, actuals, f, env, js).value;
    assert EvalAll(m, calls, jumps, actuals, Cons(f, Nil), env, js) == Oks([u] + []);
    assert [u] + [] == [u];
  }

  /** An operator whose operands are naturals has the outcome it means. */
  lemma PrimMeans(m: Machine, calls: nat, jumps: nat, actuals: seq<Value>, op: Op, e: Expr, f: Expr,
                  a: nat, b: nat, env: Env, js: Joins)
    requires !op.Ctor? && !op.Proj? && !op.Length? && (m.bounded ==> a < U64 && b < U64)
    requires Eval(m, calls, jumps, actuals, e, env, js) == Ok(Nat(a))
    requires Eval(m, calls, jumps, actuals, f, env, js) == Ok(Nat(b))
    ensures Means(op, a, b, m.bounded, Eval(m, calls, jumps, actuals, Prim(op, Cons(e, Cons(f, Nil))), env, js))
  {
    EvalPair(m, calls, jumps, actuals, e, f, env, js);
    ArithMeans(op, a, b, m.bounded);
  }

  // ---- lists and records ----

  /** `append` keeps both operands in order, `List.cons` puts one element in front, `length`
      counts, a projection gives back what construction was given, and other values are
      compared for equality. */
  lemma ListsMean(us: seq<Value>, vs: seq<Value>, v: Value, bounded: bool)
    ensures var r := Apply(Append, [Seq(us), Seq(vs)], bounded);
      && r.Ok? && r.value.Seq? && |r.value.items| == |us| + |vs|
      && (forall i :: 0 <= i < |us| ==> r.value.items[i] == us[i])
      && (forall i :: 0 <= i < |vs| ==> r.value.items[|us| + i] == vs[i])
    ensures var r := Apply(Ctor("List.cons"), [v, Seq(vs)], bounded);
      && r.Ok? && r.value.Seq? && |r.value.items| == |vs| + 1 && r.value.items[0] == v
      && (forall i :: 0 <= i < |vs| ==> r.value.items[i + 1] == vs[i])
    ensures Apply(Length, [Seq(vs)], bounded) == Ok(Nat(|vs|))
    ensures Apply(Eq, [Seq(us), Seq(vs)], bounded) == Ok(Bool(us == vs))
    ensures Apply(Ctor("List.nil"), [], bounded) == Ok(Seq([]))
  {}

  /** Values that are no records of their arguments. */
  predicate Builtin(name: string) {
    name in {"Bool.true", "Bool.false", "List.nil", "List.cons"}
  }

  lemma RecordsMean(name: string, vs: seq<Value>, i: nat, bounded: bool)
    requires !Builtin(name) && i < |vs|
    ensures var r := Apply(Ctor(name), vs, bounded); r.Ok? && Apply(Proj(i), [r.value], bounded) == Ok(vs[i])
  {}

  /** Matching undoes construction: the pattern of the constructor binds its arguments. */
  lemma MatchConstructed(name: string, vs: seq<Value>)
    requires Construct(name, vs).Ok?
    ensures Fields(name, |vs|, Construct(name, vs).value) == [vs]
  {
    if name == "List.cons" && |vs| == 2 {
      var items := [vs[0]] + vs[1].items;
      assert items[1..] == vs[1].items;
      assert vs == [vs[0], Seq(items[1..])];
    }
  }

  /** Construction undoes matching on truth values, lists and records. */
  lemma ConstructMatched(name: string, arity: nat, v: Value)
    requires Fields(name, arity, v) != [] && !v.Nat? && (v.Con? ==> !Builtin(name))
    ensures Construct(name, Fields(name, arity, v)[0]) == Ok(v)
  {
    if v.Seq? && v.items != [] {
      assert [v.items[0]] + v.items[1..] == v.items;
    }
  }

  /** Zero and successor split the naturals, the successor pattern binding the predecessor. */
  lemma MatchNatural(n: nat)
    ensures Fields("Nat.zero", 0, Nat(n)) == if n == 0 then [[]] else []
    ensures n > 0 ==>
      var fs := Fields("Nat.succ", 1, Nat(n));
      |fs| == 1 && |fs[0]| == 1 && fs[0][0].Nat? && fs[0][0].n + 1 == n
  {}

  /** A list is matched by exactly one of the two list patterns. */
  lemma MatchList(items: seq<Value>)
    ensures Fields("List.nil", 0, Seq(items)) == [] <==> items != []
    ensures Fields("List.cons", 2, Seq(items)) == [] <==> items == []
  {}

  /** A truth value by its own constructor only. */
  lemma MatchTruth(b: bool)
    ensures Fields("Bool.true", 0, Bool(b)) == [] <==> !b
    ensures Fields("Bool.false", 0, Bool(b)) == [] <==> b
  {}
}
