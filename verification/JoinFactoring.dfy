/** Diamond factoring (`joins.rs`, `factor_tail_diamonds`).

    When every branch of a tail `if` or `match` jumps to one join with one argument, the
    branches select the argument and a single jump follows.  `Factorer` is the traversal,
    `Factor` the tree it yields.
 */
module JoinFactoring {
  import opened Ir
  import opened Semantics
  import opened Wrappers

  function TailDestination(e: Expr): Option<string> {
    match e
    case Jmp(l, es) => if es.Cons? && es.tail.Nil? then Some(l) else None
    case Let(_, _, b) => TailDestination(b)
    case If(_, t, f) =>
      var d := TailDestination(t);
      if d.Some? && TailDestination(f) == d then d else None
    case Match(_, alts) => TailDestinationAlts(alts)
    case _ => None
  }

  function TailDestinationAlts(alts: Alts): Option<string> {
    match alts
    case NoMore => None
    case Default(b) => TailDestination(b)
    case Alt(_, _, b, rest) =>
      var d := TailDestination(b);
      if d.Some? && (rest.NoMore? || TailDestinationAlts(rest) == d) then d else None
  }

  /** Every tail jump replaced by its argument. */
  function TakeTail(e: Expr, l: string): Expr
    requires TailDestination(e) == Some(l)
  {
    match e
    case Jmp(_, es) => es.head
    case Let(x, v, b) => Let(x, v, TakeTail(b, l))
    case If(c, t, f) => If(c, TakeTail(t, l), TakeTail(f, l))
    case Match(s, alts) => Match(s, TakeTailAlts(alts, l))
  }

  function TakeTailAlts(alts: Alts, l: string): Alts
    requires TailDestinationAlts(alts) == Some(l)
  {
    match alts
    case Default(b) => Default(TakeTail(b, l))
    case Alt(c, bs, b, rest) =>
      Alt(c, bs, TakeTail(b, l), if rest.NoMore? then NoMore else TakeTailAlts(rest, l))
  }

  /** One jump for the whole diamond, when its target is lexically available. */
  function Hoist(e: Expr, available: set<string>, tail: bool): Expr {
    var d := TailDestination(e);
    if tail && (e.If? || e.Match?) && d.Some? && d.value in available
    then Jmp(d.value, Cons(TakeTail(e, d.value), Nil))
    else e
  }

  function Factor(e: Expr, available: set<string>, tail: bool): Expr {
    match e
    case Lit(_) => e
    case Var(_) => e
    case Param(_) => e
    case Prim(op, es) => Prim(op, FactorAll(es, available))
    case If(c, t, f) =>
      Hoist(If(Factor(c, available, false), Factor(t, available, tail), Factor(f, available, tail)),
            available, tail)
    case Let(x, v, b) =>
      Let(x, Factor(v, available, false),
          Factor(b, if v.Jp? then available + {v.target} else available, tail))
    case Match(s, alts) =>
      Hoist(Match(Factor(s, available, false), FactorAlts(alts, available, tail)), available, tail)
    case Call(f, es) => Call(f, FactorAll(es, available))
    case Jp(l, ps, c) => Jp(l, ps, Factor(c, available, true))
    case Jmp(l, es) => Jmp(l, FactorAll(es, available))
    case Unreachable => e
  }

  function FactorAll(es: Exprs, available: set<string>): (r: Exprs)
    ensures Len(r) == Len(es)
  {
    match es
    case Nil => Nil
    case Cons(e, tail) => Cons(Factor(e, available, false), FactorAll(tail, available))
  }

  function FactorAlts(alts: Alts, available: set<string>, tail: bool): Alts {
    match alts
    case NoMore => NoMore
    case Default(b) => Default(Factor(b, available, tail))
    case Alt(c, bs, b, rest) =>
      Alt(c, bs, Factor(b, available, tail), FactorAlts(rest, available, tail))
  }

  /** The traversal with the set of lexically available labels it maintains. */
  class Factorer {
    var available: set<string>

    constructor ()
      ensures available == {}
    {
      available := {};
    }

    /** A let's label is available in its body only, and only if it was not already. */
    method Expression(e: Expr, tail: bool) returns (r: Expr)
      modifies this
      ensures r == Factor(e, old(available), tail) && available == old(available)
      decreases e
    {
      match e
      case Lit(_) => r := e;
      case Var(_) => r := e;
      case Param(_) => r := e;
      case Unreachable => r := e;
      case Let(x, v, b) =>
        var value := Expression(v, false);
        var declared := v.Jp? && v.target !in available;
        if declared {
          available := available + {v.target};
        }
        assert available == if v.Jp? then old(available) + {v.target} else old(available);
        var body := Expression(b, tail);
        if declared {
          available := available - {v.target};
        }
        r := Let(x, value, body);
      case Jp(l, ps, c) =>
        var cont := Expression(c, true);
        r := Jp(l, ps, cont);
      case If(c, t, f) =>
        var cond := Expression(c, false);
        var yes := Expression(t, tail);
        var no := Expression(f, tail);
        r := Hoist(If(cond, yes, no), available, tail);
      case Match(s, alts) =>
        var scrut := Expression(s, false);
        var arms := Alternatives(alts, tail);
        r := Hoist(Match(scrut, arms), available, tail);
      case Prim(op, es) =>
        var args := Operands(es);
        r := Prim(op, args);
      case Call(f, es) =>
        var args := Operands(es);
        r := Call(f, args);
      case Jmp(l, es) =>
        var args := Operands(es);
        r := Jmp(l, args);
    }

    method Operands(es: Exprs) returns (r: Exprs)
      modifies this
      ensures r == FactorAll(es, old(available)) && available == old(available)
      decreases es
    {
      match es
      case Nil => r := Nil;
      case Cons(e, tail) =>
        var head := Expression(e, false);
        var rest := Operands(tail);
        r := Cons(head, rest);
    }

    method Alternatives(alts: Alts, tail: bool) returns (r: Alts)
      modifies this
      ensures r == FactorAlts(alts, old(available), tail) && available == old(available)
      decreases alts
    {
      match alts
      case NoMore => r := NoMore;
      case Default(b) =>
        var body := Expression(b, tail);
        r := Default(body);
      case Alt(c, bs, b, rest) =>
        var body := Expression(b, tail);
        var others := Alternatives(rest, tail);
        r := Alt(c, bs, body, others);
    }
  }

  // ---- one hoisted jump means the same as the jumps it replaces ----

  lemma {:induction false} TakeTailEval(
    m: Machine, calls: nat, jumps: nat, actuals: seq<Value>, e: Expr, l: string, env: Env, js: Joins)
    requires TailDestination(e) == Some(l) && L(l) !in Bound(e)
    ensures Eval(m, calls, jumps, actuals, e, env, js)
         == Eval(m, calls, jumps, actuals, Jmp(l, Cons(TakeTail(e, l), Nil)), env, js)
    decreases e, 1
  {
    var jump := Jmp(l, Cons(TakeTail(e, l), Nil));
    match e
    case Jmp(_, es) =>
      assert e == jump;
    case Let(x, v, b) =>
      var o := Eval(m, calls, jumps, actuals, v, env, js);
      if o.Ok? {
        assert Find(l, Visible(v, env, js)) == Find(l, js);
        TakeTailEval(m, calls, jumps, actuals, b, l, env[x := o.value], Visible(v, env, js));
        EvalJump(m, calls, jumps, actuals, l, TakeTail(b, l), env[x := o.value], Visible(v, env, js));
      }
      EvalJump(m, calls, jumps, actuals, l, TakeTail(e, l), env, js);
    case If(_, _, _) => TakeTailEvalIf(m, calls, jumps, actuals, e, l, env, js);
    case Match(s, alts) =>
      var o := Eval(m, calls, jumps, actuals, s, env, js);
      if o.Ok? {
        TakeTailEvalAlts(m, calls, jumps, actuals, alts, o.value, l, env, js);
      }
      EvalJump(m, calls, jumps, actuals, l, TakeTail(e, l), env, js);
  }

  lemma {:induction false} TakeTailEvalIf(
    m: Machine, calls: nat, jumps: nat, actuals: seq<Value>, e: Expr, l: string, env: Env, js: Joins)
    requires e.If? && TailDestination(e) == Some(l) && L(l) !in Bound(e)
    ensures Eval(m, calls, jumps, actuals, e, env, js)
         == Eval(m, calls, jumps, actuals, Jmp(l, Cons(TakeTail(e, l), Nil)), env, js)
    decreases e, 0
  {
    TakeTailEval(m, calls, jumps, actuals, e.yes, l, env, js);
    TakeTailEval(m, calls, jumps, actuals, e.no, l, env, js);
    EvalJump(m, calls, jumps, actuals, l, TakeTail(e.yes, l), env, js);
    EvalJump(m, calls, jumps, actuals, l, TakeTail(e.no, l), env, js);
    EvalJump(m, calls, jumps, actuals, l, TakeTail(e, l), env, js);
  }

  /** What a jump does with the outcome of its one argument. */
  ghost function Enter(m: Machine, calls: nat, jumps: nat, actuals: seq<Value>,
                       l: string, o: Outcome, js: Joins): Outcome
  {
    var j := Find(l, js);
    if !o.Ok? then o
    else if j.NoJoin? || |j.params| != 1 then Stuck
    else if jumps == 0 then OutOfFuel
    else Eval(m, calls, jumps - 1, actuals, j.cont, Bind(j.params, [o.value], j.env), j)
  }

  lemma EvalJump(m: Machine, calls: nat, jumps: nat, actuals: seq<Value>,
                 l: string, arg: Expr, env: Env, js: Joins)
    ensures Eval(m, calls, jumps, actuals, Jmp(l, Cons(arg, Nil)), env, js)
         == Enter(m, calls, jumps, actuals, l, Eval(m, calls, jumps, actuals, arg, env, js), js)
  {
    assert EvalAll(m, calls, jumps, actuals, Nil, env, js) == Oks([]);
    var o := Eval(m, calls, jumps, actuals, arg, env, js);
    if o.Ok? {
      assert [o.value] + [] == [o.value];
    }
  }

  lemma {:induction false} TakeTailEvalAlts(
    m: Machine, calls: nat, jumps: nat, actuals: seq<Value>, alts: Alts, v: Value, l: string, env: Env, js: Joins)
    requires TailDestinationAlts(alts) == Some(l) && L(l) !in BoundAlts(alts)
    ensures EvalAlts(m, calls, jumps, actuals, alts, v, env, js)
         == Enter(m, calls, jumps, actuals, l,
                  EvalAlts(m, calls, jumps, actuals, TakeTailAlts(alts, l), v, env, js), js)
    decreases alts
  {
    match alts
    case Default(b) =>
      TakeTailEval(m, calls, jumps, actuals, b, l, env, js);
      EvalJump(m, calls, jumps, actuals, l, TakeTail(b, l), env, js);
    case Alt(c, bs, b, rest) =>
      var fs := Fields(c, |bs|, v);
      if fs != [] {
        TakeTailEval(m, calls, jumps, actuals, b, l, Bind(bs, fs[0], env), js);
        EvalJump(m, calls, jumps, actuals, l, TakeTail(b, l), Bind(bs, fs[0], env), js);
      } else if !rest.NoMore? {
        TakeTailEvalAlts(m, calls, jumps, actuals, rest, v, l, env, js);
      }
  }

  // ---- what factoring leaves alone ----

  lemma OneArgument(arg: Expr)
    ensures FreeAll(Cons(arg, Nil)) == Free(arg)
    ensures BoundAll(Cons(arg, Nil)) == Bound(arg)
    ensures UniqueAll(Cons(arg, Nil)) == Unique(arg)
    ensures SizeAll(Cons(arg, Nil)) == Size(arg)
  {
    assert FreeAll(Nil) == {} && BoundAll(Nil) == {} && UniqueAll(Nil) && SizeAll(Nil) == 0;
  }

  lemma {:induction false} TakeTailNames(e: Expr, l: string)
    requires TailDestination(e) == Some(l) && L(l) !in Bound(e)
    ensures Bound(TakeTail(e, l)) == Bound(e)
    ensures Free(TakeTail(e, l)) + {L(l)} == Free(e)
    ensures Unique(e) ==> Unique(TakeTail(e, l))
    ensures Size(TakeTail(e, l)) < Size(e)
  {
    match e
    case Jmp(_, es) =>
      OneArgument(es.head);
    case Let(x, v, b) => TakeTailNames(b, l);
    case If(c, t, f) =>
      TakeTailNames(t, l);
      TakeTailNames(f, l);
    case Match(s, alts) => TakeTailNamesAlts(alts, l);
  }

  lemma {:induction false} TakeTailNamesAlts(alts: Alts, l: string)
    requires TailDestinationAlts(alts) == Some(l) && L(l) !in BoundAlts(alts)
    ensures BoundAlts(TakeTailAlts(alts, l)) == BoundAlts(alts)
    ensures FreeAlts(TakeTailAlts(alts, l)) + {L(l)} == FreeAlts(alts)
    ensures UniqueAlts(alts) ==> UniqueAlts(TakeTailAlts(alts, l))
    ensures SizeAlts(TakeTailAlts(alts, l)) < SizeAlts(alts)
  {
    match alts
    case Default(b) => TakeTailNames(b, l);
    case Alt(_, _, b, rest) =>
      TakeTailNames(b, l);
      if !rest.NoMore? {
        TakeTailNamesAlts(rest, l);
      }
  }

  /** Labels offered to a term are never declared again inside it. */
  predicate Fresh(available: set<string>, bound: set<Name>) {
    forall l :: l in available ==> L(l) !in bound
  }

  lemma HoistNames(e: Expr, available: set<string>, tail: bool)
    requires Unique(e) && Fresh(available, Bound(e))
    ensures Unique(Hoist(e, available, tail))
    ensures Bound(Hoist(e, available, tail)) == Bound(e)
    ensures Free(Hoist(e, available, tail)) == Free(e)
    ensures Size(Hoist(e, available, tail)) <= Size(e)
  {
    var d := TailDestination(e);
    if Hoist(e, available, tail) != e {
      TakeTailNames(e, d.value);
      OneArgument(TakeTail(e, d.value));
    }
  }

  lemma {:induction false} FactorNames(e: Expr, available: set<string>, tail: bool)
    requires Unique(e) && Fresh(available, Bound(e))
    ensures Unique(Factor(e, available, tail))
    ensures Bound(Factor(e, available, tail)) == Bound(e)
    ensures Free(Factor(e, available, tail)) == Free(e)
    ensures Size(Factor(e, available, tail)) <= Size(e)
    ensures Factor(e, available, tail).Jp? <==> e.Jp?
    decreases e, 1
  {
    match e
    case Lit(_) =>
    case Var(_) =>
    case Param(_) =>
    case Unreachable =>
    case Prim(_, es) => FactorNamesAll(es, available);
    case If(_, _, _) => FactorNamesBranches(e, available, tail);
    case Match(_, _) => FactorNamesBranches(e, available, tail);
    case Let(_, _, _) => FactorNamesLet(e, available, tail);
    case Call(_, es) => FactorNamesAll(es, available);
    case Jp(_, _, c) => FactorNames(c, available, true);
    case Jmp(_, es) => FactorNamesAll(es, available);
  }

  lemma {:induction false} FactorNamesLet(e: Expr, available: set<string>, tail: bool)
    requires e.Let? && Unique(e) && Fresh(available, Bound(e))
    ensures Unique(Factor(e, available, tail))
    ensures Bound(Factor(e, available, tail)) == Bound(e)
    ensures Free(Factor(e, available, tail)) == Free(e)
    ensures Size(Factor(e, available, tail)) <= Size(e)
    decreases e, 0
  {
    FactorNames(e.value, available, false);
    FactorNames(e.body, if e.value.Jp? then available + {e.value.target} else available, tail);
  }

  lemma {:induction false} FactorNamesBranches(e: Expr, available: set<string>, tail: bool)
    requires e.If? || e.Match?
    requires Unique(e) && Fresh(available, Bound(e))
    ensures Unique(Factor(e, available, tail))
    ensures Bound(Factor(e, available, tail)) == Bound(e)
    ensures Free(Factor(e, available, tail)) == Free(e)
    ensures Size(Factor(e, available, tail)) <= Size(e)
    decreases e, 0
  {
    if e.If? {
      FactorNames(e.cond, available, false);
      FactorNames(e.yes, available, tail);
      FactorNames(e.no, available, tail);
      HoistNames(If(Factor(e.cond, available, false), Factor(e.yes, available, tail), Factor(e.no, available, tail)),
                 available, tail);
    } else {
      FactorNames(e.scrut, available, false);
      FactorNamesAlts(e.alts, available, tail);
      HoistNames(Match(Factor(e.scrut, available, false), FactorAlts(e.alts, available, tail)), available, tail);
    }
  }

  lemma {:induction false} FactorNamesAll(es: Exprs, available: set<string>)
    requires UniqueAll(es) && Fresh(available, BoundAll(es))
    ensures UniqueAll(FactorAll(es, available))
    ensures BoundAll(FactorAll(es, available)) == BoundAll(es)
    ensures FreeAll(FactorAll(es, available)) == FreeAll(es)
    ensures SizeAll(FactorAll(es, available)) <= SizeAll(es)
    decreases es
  {
    match es
    case Nil =>
    case Cons(e, tail) =>
      FactorNames(e, available, false);
      FactorNamesAll(tail, available);
  }

  lemma {:induction false} FactorNamesAlts(alts: Alts, available: set<string>, tail: bool)
    requires UniqueAlts(alts) && Fresh(available, BoundAlts(alts))
    ensures UniqueAlts(FactorAlts(alts, available, tail))
    ensures BoundAlts(FactorAlts(alts, available, tail)) == BoundAlts(alts)
    ensures FreeAlts(FactorAlts(alts, available, tail)) == FreeAlts(alts)
    ensures SizeAlts(FactorAlts(alts, available, tail)) <= SizeAlts(alts)
    decreases alts
  {
    match alts
    case NoMore =>
    case Default(b) => FactorNames(b, available, tail);
    case Alt(_, _, b, rest) =>
      FactorNames(b, available, tail);
      FactorNamesAlts(rest, available, tail);
  }

  // ---- factoring preserves evaluation ----

  ghost predicate Factorable(e: Expr, available: set<string>) {
    Unique(e) && Fresh(available, Bound(e))
  }

  /** A definition is factored as a whole (`on`) or left alone. */
  function Image(e: Expr, on: bool, available: set<string>, tail: bool): Expr {
    if on then Factor(e, available, tail) else e
  }

  function ImageAll(es: Exprs, on: bool, available: set<string>): Exprs {
    if on then FactorAll(es, available) else es
  }

  function ImageAlts(alts: Alts, on: bool, available: set<string>, tail: bool): Alts {
    if on then FactorAlts(alts, available, tail) else alts
  }

  /** The same joins with the images of their continuations. */
  ghost predicate Images(on: bool, js1: Joins, js2: Joins) {
    if js1.NoJoin? || js2.NoJoin? then js1 == js2 else
    && js1.target == js2.target && js1.params == js2.params && js1.env == js2.env
    && (exists available :: Factorable(js1.cont, available) && js2.cont == Image(js1.cont, on, available, true))
    && Images(on, js1.outer, js2.outer)
  }

  lemma {:induction false} FindImage(l: string, on: bool, js1: Joins, js2: Joins)
    requires Images(on, js1, js2)
    ensures Images(on, Find(l, js1), Find(l, js2))
  {
    if js1.Join? && js1.target != l {
      FindImage(l, on, js1.outer, js2.outer);
    }
  }

  /** `m2` is `m1` with some definitions factored. */
  ghost predicate FactoredMachine(m1: Machine, m2: Machine) {
    && m1.bounded == m2.bounded && m1.jumps == m2.jumps
    && m1.defs.Keys == m2.defs.Keys
    && (forall f :: f in m1.defs ==>
          && m1.defs[f].params == m2.defs[f].params
          && FactorsTo(m1.defs[f].body, m2.defs[f].body))
  }

  ghost predicate FactorsTo(body: Expr, body': Expr) {
    Unique(body) && exists on: bool :: body' == Image(body, on, {}, true)
  }

  lemma HoistEval(m: Machine, calls: nat, jumps: nat, actuals: seq<Value>,
                  e: Expr, available: set<string>, tail: bool, env: Env, js: Joins)
    requires Fresh(available, Bound(e))
    ensures Eval(m, calls, jumps, actuals, Hoist(e, available, tail), env, js)
         == Eval(m, calls, jumps, actuals, e, env, js)
  {
    if Hoist(e, available, tail) != e {
      TakeTailEval(m, calls, jumps, actuals, e, TailDestination(e).value, env, js);
    }
  }

  lemma {:induction false} FactorEval(
    m1: Machine, m2: Machine, calls: nat, jumps: nat, actuals: seq<Value>,
    e: Expr, on: bool, available: set<string>, tail: bool, env: Env, js1: Joins, js2: Joins)
    requires FactoredMachine(m1, m2) && Images(on, js1, js2) && Factorable(e, available)
    ensures Eval(m1, calls, jumps, actuals, e, env, js1)
         == Eval(m2, calls, jumps, actuals, Image(e, on, available, tail), env, js2)
    decreases calls, jumps, e, 1
  {
    match e
    case Lit(_) =>
    case Var(_) =>
    case Param(_) =>
    case Unreachable =>
    case Jp(_, _, _) =>
    case Prim(_, es) => FactorEvalAll(m1, m2, calls, jumps, actuals, es, on, available, env, js1, js2);
    case If(c, t, f) => FactorIf(m1, m2, calls, jumps, actuals, e, on, available, tail, env, js1, js2);
    case Let(x, v, b) => FactorLet(m1, m2, calls, jumps, actuals, e, on, available, tail, env, js1, js2);
    case Match(s, alts) => FactorMatch(m1, m2, calls, jumps, actuals, e, on, available, tail, env, js1, js2);
    case Call(_, _) => FactorCall(m1, m2, calls, jumps, actuals, e, on, available, tail, env, js1, js2);
    case Jmp(l, es) => FactorJump(m1, m2, calls, jumps, actuals, e, on, available, tail, env, js1, js2);
  }

  lemma {:induction false} FactorCall(
    m1: Machine, m2: Machine, calls: nat, jumps: nat, actuals: seq<Value>,
    e: Expr, on: bool, available: set<string>, tail: bool, env: Env, js1: Joins, js2: Joins)
    requires e.Call?
    requires FactoredMachine(m1, m2) && Images(on, js1, js2) && Factorable(e, available)
    ensures Eval(m1, calls, jumps, actuals, e, env, js1)
         == Eval(m2, calls, jumps, actuals, Image(e, on, available, tail), env, js2)
    decreases calls, jumps, e, 0
  {
    FactorEvalAll(m1, m2, calls, jumps, actuals, e.args, on, available, env, js1, js2);
    var os := EvalAll(m1, calls, jumps, actuals, e.args, env, js1);
    if os.Oks? && calls > 0 {
      FactorRun(m1, m2, calls - 1, e.callee, os.values);
    }
  }

  lemma {:induction false} FactorJump(
    m1: Machine, m2: Machine, calls: nat, jumps: nat, actuals: seq<Value>,
    e: Expr, on: bool, available: set<string>, tail: bool, env: Env, js1: Joins, js2: Joins)
    requires e.Jmp?
    requires FactoredMachine(m1, m2) && Images(on, js1, js2) && Factorable(e, available)
    ensures Eval(m1, calls, jumps, actuals, e, env, js1)
         == Eval(m2, calls, jumps, actuals, Image(e, on, available, tail), env, js2)
    decreases calls, jumps, e, 0
  {
    var l, es := e.target, e.args;
    FactorEvalAll(m1, m2, calls, jumps, actuals, es, on, available, env, js1, js2);
    var os := EvalAll(m1, calls, jumps, actuals, es, env, js1);
    FindImage(l, on, js1, js2);
    if os.Oks? && jumps > 0 {
      FactorEnter(m1, m2, calls, jumps, actuals, os.values, on, Find(l, js1), Find(l, js2));
    }
    EvalJumpAll(m1, calls, jumps, actuals, l, es, env, js1);
    EvalJumpAll(m2, calls, jumps, actuals, l, ImageAll(es, on, available), env, js2);
  }

  /** What a jump to `j` does with its arguments. */
  function EnterAll(m: Machine, calls: nat, jumps: nat, actuals: seq<Value>, os: Outcomes, j: Joins): Outcome {
    match os
    case Fails(o) => o
    case Oks(vs) =>
      if j.NoJoin? || |j.params| != |vs| then Stuck
      else if jumps == 0 then OutOfFuel
      else Eval(m, calls, jumps - 1, actuals, j.cont, Bind(j.params, vs, j.env), j)
  }

  lemma EvalJumpAll(m: Machine, calls: nat, jumps: nat, actuals: seq<Value>, l: string, es: Exprs, env: Env, js: Joins)
    ensures Eval(m, calls, jumps, actuals, Jmp(l, es), env, js)
         == EnterAll(m, calls, jumps, actuals, EvalAll(m, calls, jumps, actuals, es, env, js), Find(l, js))
  {}

  lemma {:induction false} FactorEnter(
    m1: Machine, m2: Machine, calls: nat, jumps: nat, actuals: seq<Value>,
    vs: seq<Value>, on: bool, s1: Joins, s2: Joins)
    requires FactoredMachine(m1, m2) && Images(on, s1, s2) && jumps > 0
    ensures EnterAll(m1, calls, jumps, actuals, Oks(vs), s1) == EnterAll(m2, calls, jumps, actuals, Oks(vs), s2)
    decreases calls, jumps - 1, s1, 2
  {
    if s1.Join? && |s1.params| == |vs| {
      var outer :| Factorable(s1.cont, outer) && s2.cont == Image(s1.cont, on, outer, true);
      FactorEval(m1, m2, calls, jumps - 1, actuals, s1.cont, on, outer, true,
                 Bind(s1.params, vs, s1.env), s1, s2);
    }
  }

  lemma {:induction false} FactorIf(
    m1: Machine, m2: Machine, calls: nat, jumps: nat, actuals: seq<Value>,
    e: Expr, on: bool, available: set<string>, tail: bool, env: Env, js1: Joins, js2: Joins)
    requires e.If?
    requires FactoredMachine(m1, m2) && Images(on, js1, js2) && Factorable(e, available)
    ensures Eval(m1, calls, jumps, actuals, e, env, js1)
         == Eval(m2, calls, jumps, actuals, Image(e, on, available, tail), env, js2)
    decreases calls, jumps, e, 0
  {
    var c, t, f := e.cond, e.yes, e.no;
    FactorEval(m1, m2, calls, jumps, actuals, c, on, available, false, env, js1, js2);
    FactorEval(m1, m2, calls, jumps, actuals, t, on, available, tail, env, js1, js2);
    FactorEval(m1, m2, calls, jumps, actuals, f, on, available, tail, env, js1, js2);
    if on {
      HoistIf(m2, calls, jumps, actuals, e, available, tail, env, js2);
    }
  }

  lemma HoistIf(m: Machine, calls: nat, jumps: nat, actuals: seq<Value>,
                e: Expr, available: set<string>, tail: bool, env: Env, js: Joins)
    requires e.If? && Factorable(e, available)
    ensures Eval(m, calls, jumps, actuals, Factor(e, available, tail), env, js)
         == Eval(m, calls, jumps, actuals,
                 If(Factor(e.cond, available, false), Factor(e.yes, available, tail), Factor(e.no, available, tail)),
                 env, js)
  {
    FactorNames(e.cond, available, false);
    FactorNames(e.yes, available, tail);
    FactorNames(e.no, available, tail);
    HoistEval(m, calls, jumps, actuals,
              If(Factor(e.cond, available, false), Factor(e.yes, available, tail), Factor(e.no, available, tail)),
              available, tail, env, js);
  }

  lemma {:induction false} FactorLet(
    m1: Machine, m2: Machine, calls: nat, jumps: nat, actuals: seq<Value>,
    e: Expr, on: bool, available: set<string>, tail: bool, env: Env, js1: Joins, js2: Joins)
    requires e.Let?
    requires FactoredMachine(m1, m2) && Images(on, js1, js2) && Factorable(e, available)
    ensures Eval(m1, calls, jumps, actuals, e, env, js1)
         == Eval(m2, calls, jumps, actuals, Image(e, on, available, tail), env, js2)
    decreases calls, jumps, e, 0
  {
    var x, v, b := e.name, e.value, e.body;
    FactorEval(m1, m2, calls, jumps, actuals, v, on, available, false, env, js1, js2);
    FactorNames(v, available, false);
    var o := Eval(m1, calls, jumps, actuals, v, env, js1);
    var inner := if v.Jp? then available + {v.target} else available;
    if o.Ok? {
      if v.Jp? {
        assert Factorable(v.cont, available);
      }
      FactorEval(m1, m2, calls, jumps, actuals, b, on, inner, tail, env[x := o.value],
                 Visible(v, env, js1), Visible(Image(v, on, available, false), env, js2));
    }
  }

  lemma {:induction false} FactorMatch(
    m1: Machine, m2: Machine, calls: nat, jumps: nat, actuals: seq<Value>,
    e: Expr, on: bool, available: set<string>, tail: bool, env: Env, js1: Joins, js2: Joins)
    requires e.Match?
    requires FactoredMachine(m1, m2) && Images(on, js1, js2) && Factorable(e, available)
    ensures Eval(m1, calls, jumps, actuals, e, env, js1)
         == Eval(m2, calls, jumps, actuals, Image(e, on, available, tail), env, js2)
    decreases calls, jumps, e, 0
  {
    var s, alts := e.scrut, e.alts;
    FactorEval(m1, m2, calls, jumps, actuals, s, on, available, false, env, js1, js2);
    var o := Eval(m1, calls, jumps, actuals, s, env, js1);
    if o.Ok? {
      FactorEvalAlts(m1, m2, calls, jumps, actuals, alts, o.value, on, available, tail, env, js1, js2);
    }
    if on {
      FactorNames(s, available, false);
      FactorNamesAlts(alts, available, tail);
      HoistEval(m2, calls, jumps, actuals, Match(Factor(s, available, false), FactorAlts(alts, available, tail)),
                available, tail, env, js2);
    }
  }

  lemma {:induction false} FactorEvalAll(
    m1: Machine, m2: Machine, calls: nat, jumps: nat, actuals: seq<Value>,
    es: Exprs, on: bool, available: set<string>, env: Env, js1: Joins, js2: Joins)
    requires FactoredMachine(m1, m2) && Images(on, js1, js2)
    requires UniqueAll(es) && Fresh(available, BoundAll(es))
    ensures EvalAll(m1, calls, jumps, actuals, es, env, js1)
         == EvalAll(m2, calls, jumps, actuals, ImageAll(es, on, available), env, js2)
    decreases calls, jumps, es
  {
    match es
    case Nil =>
    case Cons(e, tail) =>
      FactorEval(m1, m2, calls, jumps, actuals, e, on, available, false, env, js1, js2);
      FactorEvalAll(m1, m2, calls, jumps, actuals, tail, on, available, env, js1, js2);
  }

  lemma {:induction false} FactorEvalAlts(
    m1: Machine, m2: Machine, calls: nat, jumps: nat, actuals: seq<Value>,
    alts: Alts, v: Value, on: bool, available: set<string>, tail: bool, env: Env, js1: Joins, js2: Joins)
    requires FactoredMachine(m1, m2) && Images(on, js1, js2)
    requires UniqueAlts(alts) && Fresh(available, BoundAlts(alts))
    ensures EvalAlts(m1, calls, jumps, actuals, alts, v, env, js1)
         == EvalAlts(m2, calls, jumps, actuals, ImageAlts(alts, on, available, tail), v, env, js2)
    decreases calls, jumps, alts
  {
    match alts
    case NoMore =>
    case Default(b) =>
      FactorEval(m1, m2, calls, jumps, actuals, b, on, available, tail, env, js1, js2);
    case Alt(c, bs, b, rest) =>
      var fs := Fields(c, |bs|, v);
      if fs != [] {
        FactorEval(m1, m2, calls, jumps, actuals, b, on, available, tail, Bind(bs, fs[0], env), js1, js2);
      } else {
        FactorEvalAlts(m1, m2, calls, jumps, actuals, rest, v, on, available, tail, env, js1, js2);
      }
  }

  lemma {:induction false} FactorRun(m1: Machine, m2: Machine, calls: nat, f: string, vs: seq<Value>)
    requires FactoredMachine(m1, m2)
    ensures Run(m1, calls, f, vs) == Run(m2, calls, f, vs)
    decreases calls, m1.jumps + 1
  {
    if f in m1.defs && |m1.defs[f].params| == |vs| {
      var d := m1.defs[f];
      var on: bool :| m2.defs[f].body == Image(d.body, on, {}, true);
      FactorEval(m1, m2, calls, m1.jumps, vs, d.body, on, {}, true, Bind(d.params, vs, map[]), NoJoin, NoJoin);
    }
  }
}
