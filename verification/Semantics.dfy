/** What generated code computes: a call-by-value, left-to-right evaluator.

    `calls` bounds the nesting of calls and `jumps` the nesting of jumps inside one
    activation; exhausting either is the outcome `OutOfFuel`.  A join point is a
    lexically scoped local function: a jump runs its continuation in the environment
    of the declaration, whether or not the jump is in tail position.
 */
module Semantics {
  import opened Ir
  import opened Wrappers

  datatype Value =
    | Nat(n: nat)
    | Bool(b: bool)
    | Seq(items: seq<Value>)
    | Con(name: string, fields: seq<Value>)

  datatype ComputeError =
    | AddOverflow | MulOverflow
    | ShiftExponentTooLarge | ShiftOverflow
    | PowExponentTooLarge | PowOverflow
    | OutputTooSmall

  /** `Stuck` stands for code the Rust compiler refuses: unbound names, wrong types. */
  datatype Outcome = Ok(value: Value) | Err(error: ComputeError) | Panic | Stuck | OutOfFuel

  datatype Outcomes = Oks(values: seq<Value>) | Fails(outcome: Outcome)

  type Env = map<string, Value>

  /** The join points in scope, innermost first, each with its environment. */
  datatype Joins =
    | NoJoin
    | Join(target: string, params: seq<string>, cont: Expr, env: Env, outer: Joins)

  /** `bounded` selects 64-bit `Nat` (generated code) or Lean's unbounded `Nat`. */
  datatype Machine = Machine(defs: map<string, Definition>, jumps: nat, bounded: bool)

  const UnitValue: Value := Con("Prod.mk", [])

  const U32: nat := 0x1_0000_0000
  const U64: nat := 0x1_0000_0000_0000_0000

  // ---- operators ----

  function Power(b: nat, e: nat): nat {
    if e == 0 then 1 else b * Power(b, e - 1)
  }

  function Checked(r: nat, bounded: bool, error: ComputeError): Outcome {
    if bounded && r >= U64 then Err(error) else Ok(Nat(r))
  }

  function Arith(op: Op, a: nat, b: nat, bounded: bool): Outcome {
    match op
    case Add => Checked(a + b, bounded, AddOverflow)
    case Mul => Checked(a * b, bounded, MulOverflow)
    case Sub => Ok(Nat(if a < b then 0 else a - b))
    case Div => Ok(Nat(if b == 0 then 0 else a / b))
    case Mod => Ok(Nat(if b == 0 then a else a % b))
    // `checked_shl` refuses amounts of 64 or more and drops the bits shifted out.
    case Shl =>
      if !bounded then Ok(Nat(a * Power(2, b)))
      else if b >= U32 then Err(ShiftExponentTooLarge)
      else if b >= 64 then Err(ShiftOverflow)
      else Ok(Nat(a * Power(2, b) % U64))
    case Shr =>
      if bounded && b >= 64 then Ok(Nat(0))
      else Ok(Nat(Shifted(a, b)))
    case Pow =>
      if bounded && b >= U32 then Err(PowExponentTooLarge)
      else Checked(Power(a, b), bounded, PowOverflow)
    case Eq => Ok(Bool(a == b))
    case Lt => Ok(Bool(a < b))
    case Le => Ok(Bool(a <= b))
    case Gt => Ok(Bool(a > b))
    case _ => Stuck
  }

  /** `a >>> b`, by repeated halving. */
  function Shifted(a: nat, b: nat): nat {
    if b == 0 then a else Shifted(a, b - 1) / 2
  }

  function Construct(name: string, vs: seq<Value>): Outcome {
    if name == "Bool.true" && vs == [] then Ok(Bool(true))
    else if name == "Bool.false" && vs == [] then Ok(Bool(false))
    else if name == "List.nil" && vs == [] then Ok(Seq([]))
    else if name == "List.cons" && |vs| == 2 then
      if vs[1].Seq? then Ok(Seq([vs[0]] + vs[1].items)) else Stuck
    else Ok(Con(name, vs))
  }

  function Apply(op: Op, vs: seq<Value>, bounded: bool): Outcome {
    if op.Ctor? then Construct(op.name, vs)
    else if op.Proj? then
      if |vs| == 1 && vs[0].Con? && op.index < |vs[0].fields| then Ok(vs[0].fields[op.index])
      else Stuck
    else if op.Length? then
      if |vs| == 1 && vs[0].Seq? then Ok(Nat(|vs[0].items|)) else Stuck
    else if |vs| != 2 then Stuck
    else if vs[0].Nat? && vs[1].Nat? then Arith(op, vs[0].n, vs[1].n, bounded)
    else if op.Append? && vs[0].Seq? && vs[1].Seq? then Ok(Seq(vs[0].items + vs[1].items))
    else if op.Eq? then Ok(Bool(vs[0] == vs[1]))
    else Stuck
  }

  function LitValue(l: Literal): Value {
    match l
    case NatLit(n) => Nat(n)
    case BoolLit(b) => Bool(b)
  }

  // ---- binding and matching ----

  function Bind<T>(xs: seq<string>, vs: seq<T>, env: map<string, T>): map<string, T>
    requires |xs| == |vs|
  {
    if xs == [] then env else Bind(xs[1..], vs[1..], env[xs[0] := vs[0]])
  }

  /** The fields a pattern binds.  `Nat.succ` is rendered as the catch-all arm with a
      saturating predecessor, so it relies on `Nat.zero` coming first. */
  function Fields(ctor: string, arity: nat, v: Value): (r: seq<seq<Value>>)
    ensures |r| <= 1 && (r != [] ==> |r[0]| == arity)
  {
    match v
    case Nat(n) =>
      if ctor == "Nat.zero" && arity == 0 && n == 0 then [[]]
      else if ctor == "Nat.succ" && arity == 1 then [[Nat(if n == 0 then 0 else n - 1)]]
      else []
    case Bool(b) =>
      if arity == 0 && ctor == (if b then "Bool.true" else "Bool.false") then [[]] else []
    case Seq(items) =>
      if ctor == "List.nil" && arity == 0 && items == [] then [[]]
      else if ctor == "List.cons" && arity == 2 && items != [] then [[items[0], Seq(items[1..])]]
      else []
    case Con(name, fields) =>
      if ctor == name && arity == |fields| then [fields] else []
  }

  /** The arm a value selects.  `again`: the arm computes its field from the scrutinee, whose
      text it repeats. */
  datatype Arm = Arm(binders: seq<string>, fields: seq<Value>, body: Expr, again: bool)

  /** `Nat.succ k` is rendered as `_ => { let k = (scrutinee).saturating_sub(1); .. }`. */
  predicate Repeats(ctor: string, arity: nat) {
    ctor == "Nat.succ" && arity == 1
  }

  function Select(alts: Alts, v: Value): (r: Option<Arm>)
    ensures r.Some? ==> r.value.body < alts && |r.value.fields| == |r.value.binders|
  {
    match alts
    case NoMore => None
    case Default(b) => Some(Arm([], [], b, false))
    case Alt(c, bs, b, rest) =>
      var fs := Fields(c, |bs|, v);
      if fs != [] then Some(Arm(bs, fs[0], b, Repeats(c, |bs|))) else Select(rest, v)
  }

  function Depth(js: Joins): nat {
    match js
    case NoJoin => 0
    case Join(_, _, _, _, outer) => 1 + Depth(outer)
  }

  /** The innermost declaration of a label, together with the joins it can see. */
  function Find(l: string, js: Joins): (r: Joins)
    ensures Depth(r) <= Depth(js)
    ensures r.Join? ==> r.target == l
  {
    match js
    case NoJoin => NoJoin
    case Join(target, _, _, _, outer) => if target == l then js else Find(l, outer)
  }

  /** The joins visible in the body of a let. */
  function Visible(v: Expr, env: Env, js: Joins): Joins {
    if v.Jp? then Join(v.target, v.params, v.cont, env, js) else js
  }

  // ---- evaluation ----

  function Eval(m: Machine, calls: nat, jumps: nat, actuals: seq<Value>,
                      e: Expr, env: Env, js: Joins): Outcome
    decreases calls, jumps, e
  {
    match e
    case Lit(l) => Ok(LitValue(l))
    case Var(x) => if x in env then Ok(env[x]) else Stuck
    case Param(i) => if i < |actuals| then Ok(actuals[i]) else Stuck
    case Prim(op, es) =>
      (match EvalAll(m, calls, jumps, actuals, es, env, js)
       case Fails(o) => o
       case Oks(vs) => Apply(op, vs, m.bounded))
    case If(c, t, f) =>
      var o := Eval(m, calls, jumps, actuals, c, env, js);
      if !o.Ok? then o
      else if !o.value.Bool? then Stuck
      else Eval(m, calls, jumps, actuals, if o.value.b then t else f, env, js)
    case Let(x, v, b) =>
      var o := Eval(m, calls, jumps, actuals, v, env, js);
      if !o.Ok? then o
      else Eval(m, calls, jumps, actuals, b, env[x := o.value], Visible(v, env, js))
    case Match(s, alts) =>
      var o := Eval(m, calls, jumps, actuals, s, env, js);
      if !o.Ok? then o else EvalAlts(m, calls, jumps, actuals, alts, o.value, env, js)
    case Call(f, es) =>
      (match EvalAll(m, calls, jumps, actuals, es, env, js)
       case Fails(o) => o
       case Oks(vs) => if calls == 0 then OutOfFuel else Run(m, calls - 1, f, vs))
    case Jp(_, _, _) => Ok(UnitValue)
    case Jmp(l, es) =>
      (match EvalAll(m, calls, jumps, actuals, es, env, js)
       case Fails(o) => o
       case Oks(vs) =>
         var j := Find(l, js);
         if j.NoJoin? || |j.params| != |vs| then Stuck
         else if jumps == 0 then OutOfFuel
         else Eval(m, calls, jumps - 1, actuals, j.cont, Bind(j.params, vs, j.env), j))
    case Unreachable => Panic
  }

  function EvalAll(m: Machine, calls: nat, jumps: nat, actuals: seq<Value>,
                         es: Exprs, env: Env, js: Joins): (r: Outcomes)
    ensures r.Oks? ==> |r.values| == Len(es)
    ensures r.Fails? ==> !r.outcome.Ok?
    decreases calls, jumps, es
  {
    match es
    case Nil => Oks([])
    case Cons(e, tail) =>
      var o := Eval(m, calls, jumps, actuals, e, env, js);
      if !o.Ok? then Fails(o) else
      match EvalAll(m, calls, jumps, actuals, tail, env, js)
      case Fails(o) => Fails(o)
      case Oks(vs) => Oks([o.value] + vs)
  }

  function EvalAlts(m: Machine, calls: nat, jumps: nat, actuals: seq<Value>,
                          alts: Alts, v: Value, env: Env, js: Joins): Outcome
    decreases calls, jumps, alts
  {
    match alts
    case NoMore => Stuck
    case Default(b) => Eval(m, calls, jumps, actuals, b, env, js)
    case Alt(c, bs, b, rest) =>
      var fs := Fields(c, |bs|, v);
      if fs != [] then Eval(m, calls, jumps, actuals, b, Bind(bs, fs[0], env), js)
      else EvalAlts(m, calls, jumps, actuals, rest, v, env, js)
  }

  /** One call of a definition, with every actual already evaluated. */
  function Run(m: Machine, calls: nat, f: string, vs: seq<Value>): Outcome
    decreases calls, m.jumps + 1
  {
    if f !in m.defs || |m.defs[f].params| != |vs| then Stuck
    else Eval(m, calls, m.jumps, vs, m.defs[f].body, Bind(m.defs[f].params, vs, map[]), NoJoin)
  }

  lemma {:induction false} SelectEval(m: Machine, calls: nat, jumps: nat, actuals: seq<Value>,
                                      alts: Alts, v: Value, env: Env, js: Joins)
    ensures EvalAlts(m, calls, jumps, actuals, alts, v, env, js)
         == match Select(alts, v)
            case None => Stuck
            case Some(a) => Eval(m, calls, jumps, actuals, a.body, Bind(a.binders, a.fields, env), js)
  {
    if alts.Alt? && Fields(alts.ctor, |alts.binders|, v) == [] {
      SelectEval(m, calls, jumps, actuals, alts.rest, v, env, js);
    }
  }

  /** What a second look at the scrutinee binds. */
  lemma {:induction false} SelectAgain(alts: Alts, v: Value)
    ensures var a := Select(alts, v);
      a.Some? && a.value.again ==> |a.value.binders| == 1 && Fields("Nat.succ", 1, v) == [a.value.fields]
  {
    if alts.Alt? && Fields(alts.ctor, |alts.binders|, v) == [] {
      SelectAgain(alts.rest, v);
    }
  }

  lemma {:induction false} BindKeys<T>(xs: seq<string>, vs: seq<T>, env: map<string, T>)
    requires |xs| == |vs|
    ensures forall x :: x in Bind(xs, vs, env) <==> x in xs || x in env
    ensures forall x :: x !in xs && x in env ==> Bind(xs, vs, env)[x] == env[x]
  {
    if xs != [] {
      BindKeys(xs[1..], vs[1..], env[xs[0] := vs[0]]);
      assert forall x :: x in xs <==> x == xs[0] || x in xs[1..];
    }
  }

  lemma {:induction false} BindValue<T>(xs: seq<string>, vs: seq<T>, env: map<string, T>, i: nat)
    requires |xs| == |vs| && i < |xs| && Distinct(xs)
    ensures xs[i] in Bind(xs, vs, env) && Bind(xs, vs, env)[xs[i]] == vs[i]
  {
    if i == 0 {
      assert xs[0] !in xs[1..];
      BindKeys(xs[1..], vs[1..], env[xs[0] := vs[0]]);
    } else {
      BindValue(xs[1..], vs[1..], env[xs[0] := vs[0]], i - 1);
    }
  }

  /** Two environments that give a term's free variables the same meaning. */
  ghost predicate AgreeOn(free: set<Name>, env: Env, env': Env) {
    forall x :: V(x) in free ==> (x in env <==> x in env') && (x in env ==> env[x] == env'[x])
  }

  lemma {:induction false} BindAgree(free: set<Name>, xs: seq<string>, vs: seq<Value>, env: Env, env': Env)
    requires |xs| == |vs| && AgreeOn(free - Vars(xs), env, env')
    ensures AgreeOn(free, Bind(xs, vs, env), Bind(xs, vs, env'))
  {
    if xs != [] {
      assert AgreeOn(free - Vars(xs[1..]), env[xs[0] := vs[0]], env'[xs[0] := vs[0]]) by {
        assert forall x :: x in xs <==> x == xs[0] || x in xs[1..];
      }
      BindAgree(free, xs[1..], vs[1..], env[xs[0] := vs[0]], env'[xs[0] := vs[0]]);
    }
  }

  /** Evaluation only looks at free variables. */
  lemma {:induction false} Coincidence(m: Machine, calls: nat, jumps: nat, actuals: seq<Value>,
                                       e: Expr, env: Env, env': Env)
    requires JoinFree(e) && AgreeOn(Free(e), env, env')
    ensures Eval(m, calls, jumps, actuals, e, env, NoJoin) == Eval(m, calls, jumps, actuals, e, env', NoJoin)
    decreases e
  {
    match e
    case Lit(_) =>
    case Var(_) =>
    case Param(_) =>
    case Unreachable =>
    case Prim(_, es) => CoincidenceAll(m, calls, jumps, actuals, es, env, env');
    case If(c, t, f) =>
      Coincidence(m, calls, jumps, actuals, c, env, env');
      Coincidence(m, calls, jumps, actuals, t, env, env');
      Coincidence(m, calls, jumps, actuals, f, env, env');
    case Let(x, v, b) =>
      Coincidence(m, calls, jumps, actuals, v, env, env');
      var o := Eval(m, calls, jumps, actuals, v, env, NoJoin);
      if o.Ok? {
        Coincidence(m, calls, jumps, actuals, b, env[x := o.value], env'[x := o.value]);
      }
    case Match(s, alts) =>
      Coincidence(m, calls, jumps, actuals, s, env, env');
      var o := Eval(m, calls, jumps, actuals, s, env, NoJoin);
      if o.Ok? {
        CoincidenceAlts(m, calls, jumps, actuals, alts, o.value, env, env');
      }
    case Call(_, es) => CoincidenceAll(m, calls, jumps, actuals, es, env, env');
  }

  lemma {:induction false} CoincidenceAll(m: Machine, calls: nat, jumps: nat, actuals: seq<Value>,
                                          es: Exprs, env: Env, env': Env)
    requires JoinFreeAll(es) && AgreeOn(FreeAll(es), env, env')
    ensures EvalAll(m, calls, jumps, actuals, es, env, NoJoin)
         == EvalAll(m, calls, jumps, actuals, es, env', NoJoin)
    decreases es
  {
    match es
    case Nil =>
    case Cons(e, tail) =>
      Coincidence(m, calls, jumps, actuals, e, env, env');
      CoincidenceAll(m, calls, jumps, actuals, tail, env, env');
  }

  lemma {:induction false} CoincidenceAlts(m: Machine, calls: nat, jumps: nat, actuals: seq<Value>,
                                           alts: Alts, v: Value, env: Env, env': Env)
    requires JoinFreeAlts(alts) && AgreeOn(FreeAlts(alts), env, env')
    ensures EvalAlts(m, calls, jumps, actuals, alts, v, env, NoJoin)
         == EvalAlts(m, calls, jumps, actuals, alts, v, env', NoJoin)
    decreases alts
  {
    match alts
    case NoMore =>
    case Default(b) => Coincidence(m, calls, jumps, actuals, b, env, env');
    case Alt(c, bs, b, rest) =>
      var fs := Fields(c, |bs|, v);
      if fs != [] {
        BindAgree(Free(b), bs, fs[0], env, env');
        Coincidence(m, calls, jumps, actuals, b, Bind(bs, fs[0], env), Bind(bs, fs[0], env'));
      } else {
        CoincidenceAlts(m, calls, jumps, actuals, rest, v, env, env');
      }
  }

  /** A term without jumps does not look at the joins in scope. */
  lemma {:induction false} JoinsUnused(m: Machine, calls: nat, jumps: nat, actuals: seq<Value>,
                                       e: Expr, env: Env, js: Joins)
    requires JoinFree(e)
    ensures Eval(m, calls, jumps, actuals, e, env, js) == Eval(m, calls, jumps, actuals, e, env, NoJoin)
    decreases e
  {
    match e
    case Lit(_) =>
    case Var(_) =>
    case Param(_) =>
    case Unreachable =>
    case Prim(_, es) => JoinsUnusedAll(m, calls, jumps, actuals, es, env, js);
    case If(c, t, f) =>
      JoinsUnused(m, calls, jumps, actuals, c, env, js);
      JoinsUnused(m, calls, jumps, actuals, t, env, js);
      JoinsUnused(m, calls, jumps, actuals, f, env, js);
    case Let(x, v, b) =>
      JoinsUnused(m, calls, jumps, actuals, v, env, js);
      var o := Eval(m, calls, jumps, actuals, v, env, NoJoin);
      if o.Ok? {
        JoinsUnused(m, calls, jumps, actuals, b, env[x := o.value], js);
      }
    case Match(s, alts) =>
      JoinsUnused(m, calls, jumps, actuals, s, env, js);
      var o := Eval(m, calls, jumps, actuals, s, env, NoJoin);
      if o.Ok? {
        JoinsUnusedAlts(m, calls, jumps, actuals, alts, o.value, env, js);
      }
    case Call(_, es) => JoinsUnusedAll(m, calls, jumps, actuals, es, env, js);
  }

  lemma {:induction false} JoinsUnusedAll(m: Machine, calls: nat, jumps: nat, actuals: seq<Value>,
                                          es: Exprs, env: Env, js: Joins)
    requires JoinFreeAll(es)
    ensures EvalAll(m, calls, jumps, actuals, es, env, js) == EvalAll(m, calls, jumps, actuals, es, env, NoJoin)
    decreases es
  {
    match es
    case Nil =>
    case Cons(e, tail) =>
      JoinsUnused(m, calls, jumps, actuals, e, env, js);
      JoinsUnusedAll(m, calls, jumps, actuals, tail, env, js);
  }

  lemma {:induction false} JoinsUnusedAlts(m: Machine, calls: nat, jumps: nat, actuals: seq<Value>,
                                           alts: Alts, v: Value, env: Env, js: Joins)
    requires JoinFreeAlts(alts)
    ensures EvalAlts(m, calls, jumps, actuals, alts, v, env, js)
         == EvalAlts(m, calls, jumps, actuals, alts, v, env, NoJoin)
    decreases alts
  {
    match alts
    case NoMore =>
    case Default(b) => JoinsUnused(m, calls, jumps, actuals, b, env, js);
    case Alt(c, bs, b, rest) =>
      var fs := Fields(c, |bs|, v);
      if fs != [] {
        JoinsUnused(m, calls, jumps, actuals, b, Bind(bs, fs[0], env), js);
      } else {
        JoinsUnusedAlts(m, calls, jumps, actuals, rest, v, env, js);
      }
  }
}
