/** Generated 64-bit `Nat` code against Lean's unbounded `Nat`.

    `Steps` lists the arithmetic the unbounded evaluation performs, in order.  A body
    without left shifts computes exactly the unbounded outcome unless one of those steps
    leaves the machine's range, and then it fails with the error of the first such step.
 */
module BoundedNat {
  import opened Ir
  import opened Semantics

  // ---- what fits the machine ----

  predicate Fits(v: Value) {
    match v
    case Nat(n) => n < U64
    case Bool(_) => true
    case Seq(items) => forall i :: 0 <= i < |items| ==> Fits(items[i])
    case Con(_, fields) => forall i :: 0 <= i < |fields| ==> Fits(fields[i])
  }

  predicate FitAll(vs: seq<Value>) {
    forall i :: 0 <= i < |vs| ==> Fits(vs[i])
  }

  ghost predicate FitEnv(env: Env) {
    forall x :: x in env ==> Fits(env[x])
  }

  /** No left shift, and only literals a `u64` can hold. */
  predicate Exact(e: Expr) {
    && (e.Prim? ==> !e.op.Shl?)
    && (e.Lit? ==> Fits(LitValue(e.lit)))
    && (forall c :: c in Children(e) ==> Exact(c))
  }

  predicate ExactAll(cs: seq<Expr>) {
    forall c :: c in cs ==> Exact(c)
  }

  ghost predicate FitJoins(js: Joins) {
    js.Join? ==> Exact(js.cont) && FitEnv(js.env) && FitJoins(js.outer)
  }

  ghost predicate ExactModule(m: Machine) {
    forall f :: f in m.defs ==> Exact(m.defs[f].body)
  }

  // ---- steps and their errors ----

  /** One operation on naturals; `b` is unused for `length`. */
  datatype Step = Step(op: Op, a: nat, b: nat)

  datatype Verdict = Clean | Overflow(error: ComputeError)

  /** Outside the machine's range: the result past 64 bits, or an exponent past 32. */
  function Judge(s: Step): Verdict {
    if s.op.Add? && s.a + s.b >= U64 then Overflow(AddOverflow)
    else if s.op.Mul? && s.a * s.b >= U64 then Overflow(MulOverflow)
    else if s.op.Pow? && s.b >= U32 then Overflow(PowExponentTooLarge)
    else if s.op.Pow? && Power(s.a, s.b) >= U64 then Overflow(PowOverflow)
    else Clean
  }

  function First(steps: seq<Step>): Verdict {
    if steps == [] then Clean
    else if Judge(steps[0]).Overflow? then Judge(steps[0])
    else First(steps[1..])
  }

  lemma {:induction false} FirstConcat(s: seq<Step>, t: seq<Step>)
    ensures First(s + t) == if First(s).Overflow? then First(s) else First(t)
  {
    if s == [] {
      assert s + t == t;
    } else {
      assert (s + t)[1..] == s[1..] + t;
      FirstConcat(s[1..], t);
    }
  }

  /** Lists are held in memory: none has 2^64 elements. */
  predicate Addressable(steps: seq<Step>) {
    forall i :: 0 <= i < |steps| && steps[i].op.Length? ==> steps[i].a < U64
  }

  lemma AddressableParts(s: seq<Step>, t: seq<Step>)
    requires Addressable(s + t)
    ensures Addressable(s) && Addressable(t)
  {
    forall i | 0 <= i < |s| && s[i].op.Length?
      ensures s[i].a < U64
    {
      assert (s + t)[i] == s[i];
    }
    forall i | 0 <= i < |t| && t[i].op.Length?
      ensures t[i].a < U64
    {
      assert (s + t)[|s| + i] == t[i];
    }
  }

  function Unbounded(m: Machine): Machine {
    m.(bounded := false)
  }

  function Bounded(m: Machine): Machine {
    m.(bounded := true)
  }

  function ApplySteps(op: Op, vs: seq<Value>): seq<Step> {
    if op.Length? then
      if |vs| == 1 && vs[0].Seq? then [Step(op, |vs[0].items|, 0)] else []
    else if |vs| == 2 && vs[0].Nat? && vs[1].Nat? && !op.Ctor? && !op.Proj? then [Step(op, vs[0].n, vs[1].n)]
    else []
  }

  /** The arithmetic of an unbounded evaluation, in evaluation order. */
  function Steps(m: Machine, calls: nat, jumps: nat, actuals: seq<Value>, e: Expr, env: Env, js: Joins): seq<Step>
    requires !m.bounded
    decreases calls, jumps, e
  {
    match e
    case Lit(_) => []
    case Var(_) => []
    case Param(_) => []
    case Prim(op, es) =>
      var os := EvalAll(m, calls, jumps, actuals, es, env, js);
      StepsAll(m, calls, jumps, actuals, es, env, js) + (if os.Oks? then ApplySteps(op, os.values) else [])
    case If(c, t, f) =>
      var o := Eval(m, calls, jumps, actuals, c, env, js);
      Steps(m, calls, jumps, actuals, c, env, js)
      + (if o.Ok? && o.value.Bool? then Steps(m, calls, jumps, actuals, if o.value.b then t else f, env, js) else [])
    case Let(x, v, b) =>
      var o := Eval(m, calls, jumps, actuals, v, env, js);
      Steps(m, calls, jumps, actuals, v, env, js)
      + (if o.Ok? then Steps(m, calls, jumps, actuals, b, env[x := o.value], Visible(v, env, js)) else [])
    case Match(s, alts) =>
      var o := Eval(m, calls, jumps, actuals, s, env, js);
      Steps(m, calls, jumps, actuals, s, env, js)
      + (if o.Ok? then StepsAlts(m, calls, jumps, actuals, alts, o.value, env, js) else [])
    case Call(f, es) =>
      var os := EvalAll(m, calls, jumps, actuals, es, env, js);
      StepsAll(m, calls, jumps, actuals, es, env, js)
      + (if os.Oks? && calls > 0 then StepsRun(m, calls - 1, f, os.values) else [])
    case Jp(_, _, _) => []
    case Jmp(l, es) =>
      var os := EvalAll(m, calls, jumps, actuals, es, env, js);
      var j := Find(l, js);
      StepsAll(m, calls, jumps, actuals, es, env, js)
      + (if os.Oks? && j.Join? && |j.params| == |os.values| && jumps > 0
         then Steps(m, calls, jumps - 1, actuals, j.cont, Bind(j.params, os.values, j.env), j) else [])
    case Unreachable => []
  }

  function StepsAll(m: Machine, calls: nat, jumps: nat, actuals: seq<Value>, es: Exprs, env: Env, js: Joins): seq<Step>
    requires !m.bounded
    decreases calls, jumps, es
  {
    match es
    case Nil => []
    case Cons(e, tail) =>
      Steps(m, calls, jumps, actuals, e, env, js)
      + (if Eval(m, calls, jumps, actuals, e, env, js).Ok?
         then StepsAll(m, calls, jumps, actuals, tail, env, js) else [])
  }

  function StepsAlts(m: Machine, calls: nat, jumps: nat, actuals: seq<Value>, alts: Alts, v: Value,
                     env: Env, js: Joins): seq<Step>
    requires !m.bounded
    decreases calls, jumps, alts
  {
    match alts
    case NoMore => []
    case Default(b) => Steps(m, calls, jumps, actuals, b, env, js)
    case Alt(c, bs, b, rest) =>
      var fs := Fields(c, |bs|, v);
      if fs != [] then Steps(m, calls, jumps, actuals, b, Bind(bs, fs[0], env), js)
      else StepsAlts(m, calls, jumps, actuals, rest, v, env, js)
  }

  function StepsRun(m: Machine, calls: nat, f: string, vs: seq<Value>): seq<Step>
    requires !m.bounded
    decreases calls, m.jumps + 1
  {
    if f !in m.defs || |m.defs[f].params| != |vs| then []
    else Steps(m, calls, m.jumps, vs, m.defs[f].body, Bind(m.defs[f].params, vs, map[]), NoJoin)
  }

  // ---- operators ----

  lemma {:induction false} PowerGrows(e: nat, f: nat)
    requires e <= f
    ensures Power(2, e) <= Power(2, f)
    decreases f - e
  {
    if e < f {
      assert Power(2, e + 1) == 2 * Power(2, e);
      PowerGrows(e + 1, f);
    }
  }

  /** Halving `b` times brings anything below `2^b` to zero. */
  lemma {:induction false} ShiftedBelow(a: nat, b: nat, k: nat)
    requires k <= b && a < Power(2, b)
    ensures Shifted(a, k) < Power(2, b - k) && Shifted(a, k) <= a
    decreases k
  {
    if k > 0 {
      ShiftedBelow(a, b, k - 1);
      assert Power(2, b - (k - 1)) == 2 * Power(2, b - k);
    }
  }

  lemma {:induction false} PowerSum(d: nat, e: nat)
    ensures Power(2, d + e) == Power(2, d) * Power(2, e)
    decreases e
  {
    if e > 0 {
      PowerSum(d, e - 1);
      var p, q := Power(2, d), Power(2, e - 1);
      assert p * (2 * q) == 2 * (p * q);
    }
  }

  lemma WordPower()
    ensures Power(2, 64) == U64
  {
    assert Power(2, 8) == 0x100;
    PowerSum(8, 8);
    PowerSum(16, 16);
    PowerSum(32, 32);
  }

  lemma {:induction false} ShiftedFits(a: nat, b: nat)
    requires a < U64
    ensures Shifted(a, b) < U64 && (b >= 64 ==> Shifted(a, b) == 0)
  {
    WordPower();
    if b >= 64 {
      PowerGrows(64, b);
      ShiftedBelow(a, b, b);
    } else {
      ShiftedBelow(a, 64, b);
    }
  }

  lemma {:induction false} Multiple(b: nat, q: nat)
    requires b >= 1
    ensures b * q >= q
  {
    if b > 1 {
      Multiple(b - 1, q);
      assert b * q == (b - 1) * q + q;
    }
  }

  lemma QuotientFits(a: nat, b: nat)
    requires b != 0
    ensures a / b <= a
  {
    Multiple(b, a / b);
    assert a == b * (a / b) + a % b;
  }

  /** Machine arithmetic fails exactly out of range and is otherwise Lean's. */
  lemma ArithExact(op: Op, a: nat, b: nat)
    requires a < U64 && b < U64 && !op.Shl?
    ensures Arith(op, a, b, true)
         == if Judge(Step(op, a, b)).Overflow? then Err(Judge(Step(op, a, b)).error) else Arith(op, a, b, false)
    ensures Arith(op, a, b, true).Ok? ==> Fits(Arith(op, a, b, true).value)
  {
    if op.Shr? {
      ShiftedFits(a, b);
    } else if op.Div? && b != 0 {
      QuotientFits(a, b);
    }
  }

  /** `checked_shl` is exact only while no bit is lost; the amount is limited separately. */
  lemma ShlExact(a: nat, b: nat)
    requires a < U64 && b < U64
    ensures Arith(Shl, a, b, true) == Arith(Shl, a, b, false) <==> b < 64 && a * Power(2, b) < U64
  {
    var r := a * Power(2, b);
    if r >= U64 {
      assert r % U64 < U64;
    }
  }

  lemma ConstructFits(name: string, vs: seq<Value>)
    requires FitAll(vs)
    ensures Construct(name, vs).Ok? ==> Fits(Construct(name, vs).value)
  {}

  lemma ApplyExact(op: Op, vs: seq<Value>)
    requires FitAll(vs) && !op.Shl? && Addressable(ApplySteps(op, vs))
    ensures var verdict := First(ApplySteps(op, vs));
            Apply(op, vs, true) == if verdict.Overflow? then Err(verdict.error) else Apply(op, vs, false)
    ensures Apply(op, vs, true).Ok? ==> Fits(Apply(op, vs, true).value)
  {
    if op.Ctor? {
      ConstructFits(op.name, vs);
    } else if op.Length? {
      if |vs| == 1 && vs[0].Seq? {
        assert ApplySteps(op, vs)[0].op.Length?;
      }
    } else if !op.Proj? && |vs| == 2 && vs[0].Nat? && vs[1].Nat? {
      assert Fits(vs[0]) && Fits(vs[1]);
      ArithExact(op, vs[0].n, vs[1].n);
      assert ApplySteps(op, vs) == [Step(op, vs[0].n, vs[1].n)];
    } else if !op.Proj? && op.Append? && |vs| == 2 && vs[0].Seq? && vs[1].Seq? {
      assert Fits(vs[0]) && Fits(vs[1]);
    }
  }

  lemma {:induction false} BindFits(xs: seq<string>, vs: seq<Value>, env: Env)
    requires |xs| == |vs| && FitAll(vs) && FitEnv(env)
    ensures FitEnv(Bind(xs, vs, env))
  {
    if xs != [] {
      BindFits(xs[1..], vs[1..], env[xs[0] := vs[0]]);
    }
  }

  lemma FieldsFit(ctor: string, arity: nat, v: Value)
    requires Fits(v) && Fields(ctor, arity, v) != []
    ensures FitAll(Fields(ctor, arity, v)[0])
  {}

  lemma {:induction false} FindFits(l: string, js: Joins)
    requires FitJoins(js)
    ensures FitJoins(Find(l, js))
  {
    if js.Join? && js.target != l {
      FindFits(l, js.outer);
    }
  }

  // ---- evaluation ----

  /** The bounded outcome is the unbounded one, cut off at the first step out of range. */
  ghost predicate Refines(bounded: Outcome, unbounded: Outcome, steps: seq<Step>) {
    && bounded == (if First(steps).Overflow? then Err(First(steps).error) else unbounded)
    && (bounded.Ok? ==> Fits(bounded.value))
  }

  ghost predicate RefinesAll(bounded: Outcomes, unbounded: Outcomes, steps: seq<Step>) {
    && bounded == (if First(steps).Overflow? then Fails(Err(First(steps).error)) else unbounded)
    && (bounded.Oks? ==> FitAll(bounded.values))
  }

  /** Sequencing: a first part, then what it continues with. */
  lemma Chain(b1: Outcome, u1: Outcome, s1: seq<Step>, b2: Outcome, u2: Outcome, s2: seq<Step>)
    requires Refines(b1, u1, s1)
    requires !b1.Ok? ==> b2 == b1
    requires !u1.Ok? ==> u2 == u1 && s2 == []
    requires b1.Ok? ==> Refines(b2, u2, s2)
    ensures Refines(b2, u2, s1 + s2)
  {
    FirstConcat(s1, s2);
  }

  lemma ChainAll(b1: Outcomes, u1: Outcomes, s1: seq<Step>, b2: Outcome, u2: Outcome, s2: seq<Step>)
    requires RefinesAll(b1, u1, s1)
    requires b1.Fails? ==> b2 == b1.outcome && !b2.Ok?
    requires u1.Fails? ==> u2 == u1.outcome && s2 == []
    requires b1.Oks? ==> Refines(b2, u2, s2)
    ensures Refines(b2, u2, s1 + s2)
  {
    FirstConcat(s1, s2);
  }

  ghost predicate Ready(m: Machine, actuals: seq<Value>, env: Env, js: Joins) {
    ExactModule(m) && !m.bounded && FitAll(actuals) && FitEnv(env) && FitJoins(js)
  }

  lemma {:induction false} ExactEval(m: Machine, calls: nat, jumps: nat, actuals: seq<Value>, e: Expr, env: Env,
                                     js: Joins)
    requires Ready(m, actuals, env, js) && Exact(e)
    requires Addressable(Steps(m, calls, jumps, actuals, e, env, js))
    ensures Refines(Eval(Bounded(m), calls, jumps, actuals, e, env, js), Eval(m, calls, jumps, actuals, e, env, js),
                    Steps(m, calls, jumps, actuals, e, env, js))
    decreases calls, jumps, e, 1
  {
    match e
    case Lit(_) =>
    case Var(_) =>
    case Param(_) =>
    case Jp(_, _, _) =>
    case Unreachable =>
    case Prim(_, _) => ExactPrim(m, calls, jumps, actuals, e, env, js);
    case If(_, _, _) => ExactIf(m, calls, jumps, actuals, e, env, js);
    case Let(_, _, _) => ExactLet(m, calls, jumps, actuals, e, env, js);
    case Match(_, _) => ExactMatch(m, calls, jumps, actuals, e, env, js);
    case Call(_, _) => ExactCall(m, calls, jumps, actuals, e, env, js);
    case Jmp(_, _) => ExactJmp(m, calls, jumps, actuals, e, env, js);
  }

  lemma {:induction false} ExactPrim(m: Machine, calls: nat, jumps: nat, actuals: seq<Value>, e: Expr, env: Env,
                                     js: Joins)
    requires e.Prim? && Ready(m, actuals, env, js) && Exact(e)
    requires Addressable(Steps(m, calls, jumps, actuals, e, env, js))
    ensures Refines(Eval(Bounded(m), calls, jumps, actuals, e, env, js), Eval(m, calls, jumps, actuals, e, env, js),
                    Steps(m, calls, jumps, actuals, e, env, js))
    decreases calls, jumps, e, 0
  {
    var os := EvalAll(m, calls, jumps, actuals, e.args, env, js);
    var s1 := StepsAll(m, calls, jumps, actuals, e.args, env, js);
    var s2 := if os.Oks? then ApplySteps(e.op, os.values) else [];
    AddressableParts(s1, s2);
    ExactEvalAll(m, calls, jumps, actuals, e.args, env, js);
    var bs := EvalAll(Bounded(m), calls, jumps, actuals, e.args, env, js);
    if bs.Oks? {
      ApplyExact(e.op, bs.values);
    }
    ChainAll(bs, os, s1, Eval(Bounded(m), calls, jumps, actuals, e, env, js),
             Eval(m, calls, jumps, actuals, e, env, js), s2);
  }

  lemma {:induction false} ExactIf(m: Machine, calls: nat, jumps: nat, actuals: seq<Value>, e: Expr, env: Env,
                                   js: Joins)
    requires e.If? && Ready(m, actuals, env, js) && Exact(e)
    requires Addressable(Steps(m, calls, jumps, actuals, e, env, js))
    ensures Refines(Eval(Bounded(m), calls, jumps, actuals, e, env, js), Eval(m, calls, jumps, actuals, e, env, js),
                    Steps(m, calls, jumps, actuals, e, env, js))
    decreases calls, jumps, e, 0
  {
    var If(c, t, f) := e;
    assert c in Children(e) && t in Children(e) && f in Children(e);
    var u := Eval(m, calls, jumps, actuals, c, env, js);
    var s1 := Steps(m, calls, jumps, actuals, c, env, js);
    var s2 := if u.Ok? && u.value.Bool?
      then Steps(m, calls, jumps, actuals, if u.value.b then t else f, env, js) else [];
    AddressableParts(s1, s2);
    ExactEval(m, calls, jumps, actuals, c, env, js);
    var b := Eval(Bounded(m), calls, jumps, actuals, c, env, js);
    if b.Ok? && b.value.Bool? {
      ExactEval(m, calls, jumps, actuals, if b.value.b then t else f, env, js);
    }
    Chain(b, u, s1, Eval(Bounded(m), calls, jumps, actuals, e, env, js), Eval(m, calls, jumps, actuals, e, env, js),
          s2);
  }

  lemma {:induction false} ExactLet(m: Machine, calls: nat, jumps: nat, actuals: seq<Value>, e: Expr, env: Env,
                                    js: Joins)
    requires e.Let? && Ready(m, actuals, env, js) && Exact(e)
    requires Addressable(Steps(m, calls, jumps, actuals, e, env, js))
    ensures Refines(Eval(Bounded(m), calls, jumps, actuals, e, env, js), Eval(m, calls, jumps, actuals, e, env, js),
                    Steps(m, calls, jumps, actuals, e, env, js))
    decreases calls, jumps, e, 0
  {
    var Let(x, v, body) := e;
    assert v in Children(e) && body in Children(e);
    var u := Eval(m, calls, jumps, actuals, v, env, js);
    var s1 := Steps(m, calls, jumps, actuals, v, env, js);
    var s2 := if u.Ok? then Steps(m, calls, jumps, actuals, body, env[x := u.value], Visible(v, env, js)) else [];
    AddressableParts(s1, s2);
    ExactEval(m, calls, jumps, actuals, v, env, js);
    var b := Eval(Bounded(m), calls, jumps, actuals, v, env, js);
    if b.Ok? {
      assert v.Jp? ==> v.cont in Children(v);
      ExactEval(m, calls, jumps, actuals, body, env[x := b.value], Visible(v, env, js));
    }
    Chain(b, u, s1, Eval(Bounded(m), calls, jumps, actuals, e, env, js), Eval(m, calls, jumps, actuals, e, env, js),
          s2);
  }

  lemma {:induction false} ExactMatch(m: Machine, calls: nat, jumps: nat, actuals: seq<Value>, e: Expr, env: Env,
                                      js: Joins)
    requires e.Match? && Ready(m, actuals, env, js) && Exact(e)
    requires Addressable(Steps(m, calls, jumps, actuals, e, env, js))
    ensures Refines(Eval(Bounded(m), calls, jumps, actuals, e, env, js), Eval(m, calls, jumps, actuals, e, env, js),
                    Steps(m, calls, jumps, actuals, e, env, js))
    decreases calls, jumps, e, 0
  {
    var Match(s, alts) := e;
    assert s in Children(e) && forall c :: c in Bodies(alts) ==> c in Children(e);
    var u := Eval(m, calls, jumps, actuals, s, env, js);
    var s1 := Steps(m, calls, jumps, actuals, s, env, js);
    var s2 := if u.Ok? then StepsAlts(m, calls, jumps, actuals, alts, u.value, env, js) else [];
    AddressableParts(s1, s2);
    ExactEval(m, calls, jumps, actuals, s, env, js);
    var b := Eval(Bounded(m), calls, jumps, actuals, s, env, js);
    if b.Ok? {
      ExactEvalAlts(m, calls, jumps, actuals, alts, b.value, env, js);
    }
    Chain(b, u, s1, Eval(Bounded(m), calls, jumps, actuals, e, env, js), Eval(m, calls, jumps, actuals, e, env, js),
          s2);
  }

  lemma {:induction false} ExactCall(m: Machine, calls: nat, jumps: nat, actuals: seq<Value>, e: Expr, env: Env,
                                     js: Joins)
    requires e.Call? && Ready(m, actuals, env, js) && Exact(e)
    requires Addressable(Steps(m, calls, jumps, actuals, e, env, js))
    ensures Refines(Eval(Bounded(m), calls, jumps, actuals, e, env, js), Eval(m, calls, jumps, actuals, e, env, js),
                    Steps(m, calls, jumps, actuals, e, env, js))
    decreases calls, jumps, e, 0
  {
    var os := EvalAll(m, calls, jumps, actuals, e.args, env, js);
    var s1 := StepsAll(m, calls, jumps, actuals, e.args, env, js);
    var s2 := if os.Oks? && calls > 0 then StepsRun(m, calls - 1, e.callee, os.values) else [];
    AddressableParts(s1, s2);
    ExactEvalAll(m, calls, jumps, actuals, e.args, env, js);
    var bs := EvalAll(Bounded(m), calls, jumps, actuals, e.args, env, js);
    if bs.Oks? && calls > 0 {
      ExactRun(m, calls - 1, e.callee, bs.values);
    }
    ChainAll(bs, os, s1, Eval(Bounded(m), calls, jumps, actuals, e, env, js),
             Eval(m, calls, jumps, actuals, e, env, js), s2);
  }

  lemma {:induction false} ExactJmp(m: Machine, calls: nat, jumps: nat, actuals: seq<Value>, e: Expr, env: Env,
                                    js: Joins)
    requires e.Jmp? && Ready(m, actuals, env, js) && Exact(e)
    requires Addressable(Steps(m, calls, jumps, actuals, e, env, js))
    ensures Refines(Eval(Bounded(m), calls, jumps, actuals, e, env, js), Eval(m, calls, jumps, actuals, e, env, js),
                    Steps(m, calls, jumps, actuals, e, env, js))
    decreases calls, jumps, e, 0
  {
    var os := EvalAll(m, calls, jumps, actuals, e.args, env, js);
    var s1 := StepsAll(m, calls, jumps, actuals, e.args, env, js);
    var j := Find(e.target, js);
    FindFits(e.target, js);
    var goes := os.Oks? && j.Join? && |j.params| == |os.values| && jumps > 0;
    var s2 := if goes then Steps(m, calls, jumps - 1, actuals, j.cont, Bind(j.params, os.values, j.env), j) else [];
    AddressableParts(s1, s2);
    ExactEvalAll(m, calls, jumps, actuals, e.args, env, js);
    var bs := EvalAll(Bounded(m), calls, jumps, actuals, e.args, env, js);
    if bs.Oks? && goes {
      BindFits(j.params, bs.values, j.env);
      ExactEval(m, calls, jumps - 1, actuals, j.cont, Bind(j.params, bs.values, j.env), j);
    }
    ChainAll(bs, os, s1, Eval(Bounded(m), calls, jumps, actuals, e, env, js),
             Eval(m, calls, jumps, actuals, e, env, js), s2);
  }

  lemma {:induction false} ExactEvalAll(m: Machine, calls: nat, jumps: nat, actuals: seq<Value>,
                                        es: Exprs, env: Env, js: Joins)
    requires Ready(m, actuals, env, js) && ExactAll(Listed(es))
    requires Addressable(StepsAll(m, calls, jumps, actuals, es, env, js))
    ensures RefinesAll(EvalAll(Bounded(m), calls, jumps, actuals, es, env, js),
                       EvalAll(m, calls, jumps, actuals, es, env, js),
                       StepsAll(m, calls, jumps, actuals, es, env, js))
    decreases calls, jumps, es, 0
  {
    match es
    case Nil =>
    case Cons(e, tail) =>
      assert e in Listed(es) && forall c :: c in Listed(tail) ==> c in Listed(es);
      var u := Eval(m, calls, jumps, actuals, e, env, js);
      var s1 := Steps(m, calls, jumps, actuals, e, env, js);
      var s2 := if u.Ok? then StepsAll(m, calls, jumps, actuals, tail, env, js) else [];
      AddressableParts(s1, s2);
      FirstConcat(s1, s2);
      ExactEval(m, calls, jumps, actuals, e, env, js);
      if Eval(Bounded(m), calls, jumps, actuals, e, env, js).Ok? {
        ExactEvalAll(m, calls, jumps, actuals, tail, env, js);
      }
  }

  lemma {:induction false} ExactEvalAlts(m: Machine, calls: nat, jumps: nat, actuals: seq<Value>,
                                         alts: Alts, v: Value, env: Env, js: Joins)
    requires Ready(m, actuals, env, js) && ExactAll(Bodies(alts)) && Fits(v)
    requires Addressable(StepsAlts(m, calls, jumps, actuals, alts, v, env, js))
    ensures Refines(EvalAlts(Bounded(m), calls, jumps, actuals, alts, v, env, js),
                    EvalAlts(m, calls, jumps, actuals, alts, v, env, js),
                    StepsAlts(m, calls, jumps, actuals, alts, v, env, js))
    decreases calls, jumps, alts, 0
  {
    match alts
    case NoMore =>
    case Default(b) =>
      assert b in Bodies(alts);
      ExactEval(m, calls, jumps, actuals, b, env, js);
    case Alt(c, bs, b, rest) =>
      assert b in Bodies(alts) && forall d :: d in Bodies(rest) ==> d in Bodies(alts);
      var fs := Fields(c, |bs|, v);
      if fs != [] {
        FieldsFit(c, |bs|, v);
        BindFits(bs, fs[0], env);
        ExactEval(m, calls, jumps, actuals, b, Bind(bs, fs[0], env), js);
      } else {
        ExactEvalAlts(m, calls, jumps, actuals, rest, v, env, js);
      }
  }

  lemma {:induction false} ExactRun(m: Machine, calls: nat, f: string, vs: seq<Value>)
    requires ExactModule(m) && !m.bounded && FitAll(vs)
    requires Addressable(StepsRun(m, calls, f, vs))
    ensures Refines(Run(Bounded(m), calls, f, vs), Run(m, calls, f, vs), StepsRun(m, calls, f, vs))
    decreases calls, m.jumps + 1
  {
    if f in m.defs && |m.defs[f].params| == |vs| {
      BindFits(m.defs[f].params, vs, map[]);
      ExactEval(m, calls, m.jumps, vs, m.defs[f].body, Bind(m.defs[f].params, vs, map[]), NoJoin);
    }
  }

  /** For a module without left shifts and any fitting arguments: generated code answers as
      Lean does, or reports the first operation whose exact result the machine cannot hold,
      and it reports nothing else. */
  lemma BoundedRefinesUnbounded(m: Machine, calls: nat, f: string, vs: seq<Value>)
    requires m.bounded && ExactModule(m) && FitAll(vs)
    requires Addressable(StepsRun(Unbounded(m), calls, f, vs))
    ensures Run(m, calls, f, vs).Ok? ==> Run(Unbounded(m), calls, f, vs) == Run(m, calls, f, vs)
    ensures forall error :: Run(m, calls, f, vs) == Err(error)
              <==> First(StepsRun(Unbounded(m), calls, f, vs)) == Overflow(error)
    ensures First(StepsRun(Unbounded(m), calls, f, vs)).Clean? ==>
              Run(m, calls, f, vs) == Run(Unbounded(m), calls, f, vs)
  {
    ExactRun(Unbounded(m), calls, f, vs);
    UnboundedNeverErrs(Unbounded(m), calls, f, vs);
    assert Bounded(Unbounded(m)) == m;
  }

  // ---- the unbounded evaluation has no errors of its own ----

  lemma UnboundedApply(op: Op, vs: seq<Value>)
    ensures !Apply(op, vs, false).Err?
  {}

  lemma {:induction false} UnboundedEval(m: Machine, calls: nat, jumps: nat, actuals: seq<Value>, e: Expr, env: Env,
                                         js: Joins)
    requires !m.bounded
    ensures !Eval(m, calls, jumps, actuals, e, env, js).Err?
    decreases calls, jumps, e
  {
    match e
    case Lit(_) =>
    case Var(_) =>
    case Param(_) =>
    case Jp(_, _, _) =>
    case Unreachable =>
    case Prim(op, es) =>
      UnboundedEvalAll(m, calls, jumps, actuals, es, env, js);
      var os := EvalAll(m, calls, jumps, actuals, es, env, js);
      if os.Oks? {
        UnboundedApply(op, os.values);
      }
    case If(c, t, f) =>
      UnboundedEval(m, calls, jumps, actuals, c, env, js);
      UnboundedEval(m, calls, jumps, actuals, t, env, js);
      UnboundedEval(m, calls, jumps, actuals, f, env, js);
    case Let(x, v, b) =>
      UnboundedEval(m, calls, jumps, actuals, v, env, js);
      var o := Eval(m, calls, jumps, actuals, v, env, js);
      if o.Ok? {
        UnboundedEval(m, calls, jumps, actuals, b, env[x := o.value], Visible(v, env, js));
      }
    case Match(s, alts) =>
      UnboundedEval(m, calls, jumps, actuals, s, env, js);
      var o := Eval(m, calls, jumps, actuals, s, env, js);
      if o.Ok? {
        UnboundedEvalAlts(m, calls, jumps, actuals, alts, o.value, env, js);
      }
    case Call(f, es) =>
      UnboundedEvalAll(m, calls, jumps, actuals, es, env, js);
      var os := EvalAll(m, calls, jumps, actuals, es, env, js);
      if os.Oks? && calls > 0 {
        UnboundedNeverErrs(m, calls - 1, f, os.values);
      }
    case Jmp(l, es) =>
      UnboundedEvalAll(m, calls, jumps, actuals, es, env, js);
      var os := EvalAll(m, calls, jumps, actuals, es, env, js);
      var j := Find(l, js);
      if os.Oks? && j.Join? && |j.params| == |os.values| && jumps > 0 {
        UnboundedEval(m, calls, jumps - 1, actuals, j.cont, Bind(j.params, os.values, j.env), j);
      }
  }

  lemma {:induction false} UnboundedEvalAll(m: Machine, calls: nat, jumps: nat, actuals: seq<Value>,
                                            es: Exprs, env: Env, js: Joins)
    requires !m.bounded
    ensures var os := EvalAll(m, calls, jumps, actuals, es, env, js); os.Fails? ==> !os.outcome.Err?
    decreases calls, jumps, es
  {
    match es
    case Nil =>
    case Cons(e, tail) =>
      UnboundedEval(m, calls, jumps, actuals, e, env, js);
      UnboundedEvalAll(m, calls, jumps, actuals, tail, env, js);
  }

  lemma {:induction false} UnboundedEvalAlts(m: Machine, calls: nat, jumps: nat, actuals: seq<Value>,
                                             alts: Alts, v: Value, env: Env, js: Joins)
    requires !m.bounded
    ensures !EvalAlts(m, calls, jumps, actuals, alts, v, env, js).Err?
    decreases calls, jumps, alts
  {
    match alts
    case NoMore =>
    case Default(b) => UnboundedEval(m, calls, jumps, actuals, b, env, js);
    case Alt(c, bs, b, rest) =>
      var fs := Fields(c, |bs|, v);
      if fs != [] {
        UnboundedEval(m, calls, jumps, actuals, b, Bind(bs, fs[0], env), js);
      } else {
        UnboundedEvalAlts(m, calls, jumps, actuals, rest, v, env, js);
      }
  }

  lemma {:induction false} UnboundedNeverErrs(m: Machine, calls: nat, f: string, vs: seq<Value>)
    requires !m.bounded
    ensures !Run(m, calls, f, vs).Err?
    decreases calls, m.jumps + 1
  {
    if f in m.defs && |m.defs[f].params| == |vs| {
      UnboundedEval(m, calls, m.jumps, vs, m.defs[f].body, Bind(m.defs[f].params, vs, map[]), NoJoin);
    }
  }
}
