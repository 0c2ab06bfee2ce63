/** The whole join pass (`joins.rs`, `expand`): checks, cost guard, diamond factoring as
    the fallback, and the expansion itself.
 */
module JoinPass {
  import opened Ir
  import opened Semantics
  import opened JoinExpansion
  import opened JoinCost
  import opened JoinCycles
  import opened JoinFactoring
  import opened Wrappers

  // ---- the expansion ----

  class Expander {
    const ctx: Context
    var active: set<string>

    constructor (ctx: Context)
      ensures this.ctx == ctx && active == {}
    {
      this.ctx := ctx;
      active := {};
    }

    /** Terminates on every input: the labels not yet active, then the tree, decrease. */
    method Expression(e: Expr) returns (r: Result<Expr, Error>)
      requires ValidContext(ctx) && ValidJumps(e, ctx) && Above(active, e, ctx)
      requires active <= ctx.decls.Keys
      modifies this
      ensures r.Success? ==>
        && active == old(active)
        && Expandable(e, ctx, |ctx.decls.Keys - active|)
        && r.value == Inlined(e, ctx, |ctx.decls.Keys - active|)
      ensures r.Failure? ==> Never(e, ctx)
      decreases ctx.decls.Keys - active, e, 2
    {
      if e.Jmp? || (e.Jp? && e.target in ctx.jumped) {
        r := Join(e);
        return;
      }
      Below(active, e, ctx);
      match e
      case Jp(_, _, c) =>
        r := Expression(c);
      case Prim(op, es) =>
        var args :- ExpressionAll(es);
        r := Success(Prim(op, args));
      case Call(f, es) =>
        var args :- ExpressionAll(es);
        r := Success(Call(f, args));
      case If(c, t, f) =>
        var c' :- Expression(c);
        var t' :- Expression(t);
        var f' :- Expression(f);
        r := Success(If(c', t', f'));
      case Let(x, v, b) =>
        var v' :- Expression(v);
        var b' :- Expression(b);
        r := Success(Let(x, v', b'));
      case Match(s, alts) =>
        var s' :- Expression(s);
        var alts' :- ExpressionAlts(alts);
        r := Success(Match(s', alts'));
      case _ =>
        r := Success(e);
    }

    method Join(e: Expr) returns (r: Result<Expr, Error>)
      requires e.Jmp? || (e.Jp? && e.target in ctx.jumped)
      requires ValidContext(ctx) && ValidJumps(e, ctx) && Above(active, e, ctx)
      requires active <= ctx.decls.Keys
      modifies this
      ensures r.Success? ==>
        && active == old(active)
        && Expandable(e, ctx, |ctx.decls.Keys - active|)
        && r.value == Inlined(e, ctx, |ctx.decls.Keys - active|)
      ensures r.Failure? ==> Never(e, ctx)
      decreases ctx.decls.Keys - active, e, 1
    {
      if e.Jp? {
        return Success(UnitExpr);
      }
      if |ctx.decls[e.target].params| != Len(e.args) || e.target in active {
        ActiveTarget(active, e, ctx);
        return Failure(UnsupportedJoinPoint);
      }
      r := Jump(e);
    }

    method Jump(e: Expr) returns (r: Result<Expr, Error>)
      requires e.Jmp? && ValidContext(ctx) && ValidJumps(e, ctx) && Above(active, e, ctx)
      requires active <= ctx.decls.Keys
      requires |ctx.decls[e.target].params| == Len(e.args) && e.target !in active
      modifies this
      ensures r.Success? ==>
        && active == old(active)
        && Expandable(e, ctx, |ctx.decls.Keys - active|)
        && r.value == Inlined(e, ctx, |ctx.decls.Keys - active|)
      ensures r.Failure? ==> Never(e, ctx)
      decreases ctx.decls.Keys - active, e, 0
    {
      var l, es := e.target, e.args;
      Below(active, e, ctx);
      AboveTarget(active, l, es, ctx);
      JumpRefused(e, ctx, 1);
      var args :- ExpressionAll(es);
      var body :- Continuation(l);
      JumpInlined(e, ctx, |ctx.decls.Keys - active|);
      r := Success(Lets(ctx.decls[l].params, args, body));
    }

    /** The continuation of a label, active while it is expanded. */
    method Continuation(l: string) returns (r: Result<Expr, Error>)
      requires ValidContext(ctx) && l in ctx.decls && active <= ctx.decls.Keys && l !in active
      requires Above(active + {l}, ctx.decls[l].cont, ctx)
      modifies this
      ensures r.Success? ==>
        && active == old(active) && |ctx.decls.Keys - active| > 0
        && Expandable(ctx.decls[l].cont, ctx, |ctx.decls.Keys - active| - 1)
        && r.value == Inlined(ctx.decls[l].cont, ctx, |ctx.decls.Keys - active| - 1)
      ensures r.Failure? ==> Never(ctx.decls[l].cont, ctx)
      decreases ctx.decls.Keys - active - {l}
    {
      OneFewer(ctx.decls.Keys, active, l);
      active := active + {l};
      r := Expression(ctx.decls[l].cont);
      active := active - {l};
      assert active == old(active) || r.Failure?;
    }

    method ExpressionAll(es: Exprs) returns (r: Result<Exprs, Error>)
      requires ValidContext(ctx) && active <= ctx.decls.Keys
      requires forall c :: c in Listed(es) ==> ValidJumps(c, ctx) && Above(active, c, ctx)
      modifies this
      ensures r.Success? ==>
        && active == old(active)
        && ExpandableAll(es, ctx, |ctx.decls.Keys - active|)
        && r.value == InlinedAll(es, ctx, |ctx.decls.Keys - active|)
      ensures r.Failure? ==> exists c :: c in Listed(es) && Never(c, ctx)
      decreases ctx.decls.Keys - active, es
    {
      match es
      case Nil =>
        r := Success(Nil);
      case Cons(e, tail) =>
        assert e in Listed(es) && forall c :: c in Listed(tail) ==> c in Listed(es);
        var e' :- Expression(e);
        var tail' :- ExpressionAll(tail);
        r := Success(Cons(e', tail'));
    }

    method ExpressionAlts(alts: Alts) returns (r: Result<Alts, Error>)
      requires ValidContext(ctx) && active <= ctx.decls.Keys
      requires forall c :: c in Bodies(alts) ==> ValidJumps(c, ctx) && Above(active, c, ctx)
      modifies this
      ensures r.Success? ==>
        && active == old(active)
        && ExpandableAlts(alts, ctx, |ctx.decls.Keys - active|)
        && r.value == InlinedAlts(alts, ctx, |ctx.decls.Keys - active|)
      ensures r.Failure? ==> exists c :: c in Bodies(alts) && Never(c, ctx)
      decreases ctx.decls.Keys - active, alts
    {
      match alts
      case NoMore =>
        r := Success(NoMore);
      case Default(b) =>
        var b' :- Expression(b);
        r := Success(Default(b'));
      case Alt(c, bs, b, rest) =>
        assert b in Bodies(alts) && forall c :: c in Bodies(rest) ==> c in Bodies(alts);
        var b' :- Expression(b);
        var rest' :- ExpressionAlts(rest);
        r := Success(Alt(c, bs, b', rest'));
    }
  }

  lemma OneFewer(labels: set<string>, active: set<string>, l: string)
    requires l in labels && l !in active
    ensures labels - (active + {l}) == labels - active - {l}
    ensures |labels - (active + {l})| == |labels - active| - 1
    ensures labels - (active + {l}) < labels - active
  {
    assert labels - (active + {l}) == labels - active - {l};
  }

  lemma JumpInlined(e: Expr, ctx: Context, n: nat)
    requires e.Jmp? && n > 0 && e.target in ctx.decls && |ctx.decls[e.target].params| == Len(e.args)
    ensures Expandable(e, ctx, n) <==> ExpandableAll(e.args, ctx, n) && Expandable(ctx.decls[e.target].cont, ctx, n - 1)
    ensures Expandable(e, ctx, n) ==>
      Inlined(e, ctx, n) == Lets(ctx.decls[e.target].params, InlinedAll(e.args, ctx, n),
                                 Inlined(ctx.decls[e.target].cont, ctx, n - 1))
  {}

  /** What a traversal below `e` may rely on, and what a refusal there means for `e`. */
  lemma Below(active: set<string>, e: Expr, ctx: Context)
    requires ValidJumps(e, ctx) && Above(active, e, ctx)
    requires e.Jp? ==> e.target !in ctx.jumped
    ensures forall c :: c in Children(e) ==> ValidJumps(c, ctx) && Above(active, c, ctx)
    ensures (exists c :: c in Children(e) && Never(c, ctx)) ==> Never(e, ctx)
    ensures e.If? ==> e.cond in Children(e) && e.yes in Children(e) && e.no in Children(e)
    ensures e.Let? ==> e.value in Children(e) && e.body in Children(e)
    ensures e.Jp? ==> e.cont in Children(e)
    ensures e.Match? ==> e.scrut in Children(e) && forall c :: c in Bodies(e.alts) ==> c in Children(e)
  {
    forall c | c in Children(e)
      ensures Above(active, c, ctx)
    {
      AboveChild(active, e, c, ctx);
    }
    if c :| c in Children(e) && Never(c, ctx) {
      forall k: nat
        ensures !Expandable(e, ctx, k)
      {
        if e.Jmp? {
          ListedCost(e.args, ctx, k);
        } else if !e.Jp? {
          ChildrenCost(e, ctx, k);
        }
      }
    }
  }

  // ---- accepted results contain no joins ----

  lemma {:induction false} InlinedJoinFree(e: Expr, ctx: Context, k: nat)
    requires Expandable(e, ctx, k)
    ensures JoinFree(Inlined(e, ctx, k))
    decreases k, e
  {
    match e
    case Lit(_) =>
    case Var(_) =>
    case Param(_) =>
    case Unreachable =>
    case Prim(_, es) => InlinedJoinFreeAll(es, ctx, k);
    case If(c, t, f) =>
      InlinedJoinFree(c, ctx, k);
      InlinedJoinFree(t, ctx, k);
      InlinedJoinFree(f, ctx, k);
    case Let(_, v, b) =>
      InlinedJoinFree(v, ctx, k);
      InlinedJoinFree(b, ctx, k);
    case Match(s, alts) =>
      InlinedJoinFree(s, ctx, k);
      InlinedJoinFreeAlts(alts, ctx, k);
    case Call(_, es) => InlinedJoinFreeAll(es, ctx, k);
    case Jp(l, _, c) => if l !in ctx.jumped { InlinedJoinFree(c, ctx, k); }
    case Jmp(l, es) =>
      InlinedJoinFreeAll(es, ctx, k);
      InlinedJoinFree(ctx.decls[l].cont, ctx, k - 1);
      LetsJoinFree(ctx.decls[l].params, InlinedAll(es, ctx, k), Inlined(ctx.decls[l].cont, ctx, k - 1));
  }

  lemma {:induction false} InlinedJoinFreeAll(es: Exprs, ctx: Context, k: nat)
    requires ExpandableAll(es, ctx, k)
    ensures JoinFreeAll(InlinedAll(es, ctx, k))
    decreases k, es
  {
    match es
    case Nil =>
    case Cons(e, tail) =>
      InlinedJoinFree(e, ctx, k);
      InlinedJoinFreeAll(tail, ctx, k);
  }

  lemma {:induction false} InlinedJoinFreeAlts(alts: Alts, ctx: Context, k: nat)
    requires ExpandableAlts(alts, ctx, k)
    ensures JoinFreeAlts(InlinedAlts(alts, ctx, k))
    decreases k, alts
  {
    match alts
    case NoMore =>
    case Default(b) => InlinedJoinFree(b, ctx, k);
    case Alt(_, _, b, rest) =>
      InlinedJoinFree(b, ctx, k);
      InlinedJoinFreeAlts(rest, ctx, k);
  }

  lemma {:induction false} LetsJoinFree(ps: seq<string>, es: Exprs, body: Expr)
    requires |ps| == Len(es) && JoinFreeAll(es) && JoinFree(body)
    ensures JoinFree(Lets(ps, es, body))
  {
    match es
    case Nil =>
    case Cons(_, tail) => LetsJoinFree(ps[1..], tail, body);
  }

  // ---- factoring never grows the expansion ----

  lemma {:induction false} TakeTailCost(e: Expr, l: string, ctx: Context, k: nat)
    requires TailDestination(e) == Some(l) && Expandable(e, ctx, k)
    ensures k > 0 && l in ctx.decls && |ctx.decls[l].params| == 1 && Expandable(ctx.decls[l].cont, ctx, k - 1)
    ensures Expandable(TakeTail(e, l), ctx, k)
    ensures Size(Inlined(TakeTail(e, l), ctx, k)) + 1 + Size(Inlined(ctx.decls[l].cont, ctx, k - 1))
         <= Size(Inlined(e, ctx, k))
    decreases e
  {
    match e
    case Jmp(_, es) =>
      LetsSize(ctx.decls[l].params, InlinedAll(es, ctx, k), Inlined(ctx.decls[l].cont, ctx, k - 1));
      assert InlinedAll(es, ctx, k) == Cons(Inlined(es.head, ctx, k), Nil) && SizeAll(Nil) == 0;
    case Let(_, v, b) => TakeTailCost(b, l, ctx, k);
    case If(c, t, f) =>
      TakeTailCost(t, l, ctx, k);
      TakeTailCost(f, l, ctx, k);
    case Match(_, alts) => TakeTailCostAlts(alts, l, ctx, k);
  }

  lemma {:induction false} TakeTailCostAlts(alts: Alts, l: string, ctx: Context, k: nat)
    requires TailDestinationAlts(alts) == Some(l) && ExpandableAlts(alts, ctx, k)
    ensures k > 0 && l in ctx.decls && |ctx.decls[l].params| == 1 && Expandable(ctx.decls[l].cont, ctx, k - 1)
    ensures ExpandableAlts(TakeTailAlts(alts, l), ctx, k)
    ensures SizeAlts(InlinedAlts(TakeTailAlts(alts, l), ctx, k)) + 1 + Size(Inlined(ctx.decls[l].cont, ctx, k - 1))
         <= SizeAlts(InlinedAlts(alts, ctx, k))
    decreases alts
  {
    match alts
    case Default(b) => TakeTailCost(b, l, ctx, k);
    case Alt(_, _, b, rest) =>
      TakeTailCost(b, l, ctx, k);
      if !rest.NoMore? {
        TakeTailCostAlts(rest, l, ctx, k);
      }
  }

  lemma HoistCost(e: Expr, available: set<string>, tail: bool, ctx: Context, k: nat)
    requires Expandable(e, ctx, k)
    ensures Expandable(Hoist(e, available, tail), ctx, k)
    ensures Size(Inlined(Hoist(e, available, tail), ctx, k)) <= Size(Inlined(e, ctx, k))
  {
    if Hoist(e, available, tail) != e {
      var l := TailDestination(e).value;
      TakeTailCost(e, l, ctx, k);
      var es := Cons(TakeTail(e, l), Nil);
      assert ExpandableAll(Nil, ctx, k) && InlinedAll(Nil, ctx, k) == Nil && SizeAll(Nil) == 0;
      LetsSize(ctx.decls[l].params, InlinedAll(es, ctx, k), Inlined(ctx.decls[l].cont, ctx, k - 1));
    }
  }

  /** `ctx2` records the factored continuations of `ctx1`. */
  ghost predicate FactoredContext(ctx1: Context, ctx2: Context) {
    FactoredDecls(ctx1.decls, ctx2.decls) && ctx1.jumped == ctx2.jumped
  }

  ghost predicate FactoredDecls(decls1: map<string, Decl>, decls2: map<string, Decl>) {
    && decls1.Keys == decls2.Keys
    && (forall l :: l in decls1 ==>
          decls1[l].params == decls2[l].params && FactoredCont(decls1[l].cont, decls2[l].cont))
  }

  ghost predicate FactoredCont(e1: Expr, e2: Expr) {
    exists available :: Factorable(e1, available) && e2 == Factor(e1, available, true)
  }

  lemma {:induction false} FactorCost(
    e: Expr, available: set<string>, tail: bool, ctx1: Context, ctx2: Context, k: nat)
    requires FactoredContext(ctx1, ctx2) && Expandable(e, ctx1, k)
    ensures Expandable(Factor(e, available, tail), ctx2, k)
    ensures Size(Inlined(Factor(e, available, tail), ctx2, k)) <= Size(Inlined(e, ctx1, k))
    decreases k, e, 1
  {
    match e
    case Lit(_) =>
    case Var(_) =>
    case Param(_) =>
    case Unreachable =>
    case Prim(_, es) => FactorCostAll(es, available, ctx1, ctx2, k);
    case If(_, _, _) => FactorCostIf(e, available, tail, ctx1, ctx2, k);
    case Match(_, _) => FactorCostMatch(e, available, tail, ctx1, ctx2, k);
    case Let(_, v, b) =>
      FactorCost(v, available, false, ctx1, ctx2, k);
      FactorCost(b, if v.Jp? then available + {v.target} else available, tail, ctx1, ctx2, k);
    case Call(_, es) => FactorCostAll(es, available, ctx1, ctx2, k);
    case Jp(l, _, c) => if l !in ctx1.jumped { FactorCost(c, available, true, ctx1, ctx2, k); }
    case Jmp(l, es) => FactorCostJump(l, es, available, ctx1, ctx2, k);
  }

  lemma {:induction false} FactorCostIf(
    e: Expr, available: set<string>, tail: bool, ctx1: Context, ctx2: Context, k: nat)
    requires e.If? && FactoredContext(ctx1, ctx2) && Expandable(e, ctx1, k)
    ensures Expandable(Factor(e, available, tail), ctx2, k)
    ensures Size(Inlined(Factor(e, available, tail), ctx2, k)) <= Size(Inlined(e, ctx1, k))
    decreases k, e, 0
  {
    FactorCost(e.cond, available, false, ctx1, ctx2, k);
    FactorCost(e.yes, available, tail, ctx1, ctx2, k);
    FactorCost(e.no, available, tail, ctx1, ctx2, k);
    HoistCost(If(Factor(e.cond, available, false), Factor(e.yes, available, tail), Factor(e.no, available, tail)),
              available, tail, ctx2, k);
  }

  lemma {:induction false} FactorCostMatch(
    e: Expr, available: set<string>, tail: bool, ctx1: Context, ctx2: Context, k: nat)
    requires e.Match? && FactoredContext(ctx1, ctx2) && Expandable(e, ctx1, k)
    ensures Expandable(Factor(e, available, tail), ctx2, k)
    ensures Size(Inlined(Factor(e, available, tail), ctx2, k)) <= Size(Inlined(e, ctx1, k))
    decreases k, e, 0
  {
    FactorCost(e.scrut, available, false, ctx1, ctx2, k);
    FactorCostAlts(e.alts, available, tail, ctx1, ctx2, k);
    HoistCost(Match(Factor(e.scrut, available, false), FactorAlts(e.alts, available, tail)),
              available, tail, ctx2, k);
  }

  lemma {:induction false} FactorCostJump(
    l: string, es: Exprs, available: set<string>, ctx1: Context, ctx2: Context, k: nat)
    requires FactoredContext(ctx1, ctx2) && Expandable(Jmp(l, es), ctx1, k)
    ensures Expandable(Jmp(l, FactorAll(es, available)), ctx2, k)
    ensures Size(Inlined(Jmp(l, FactorAll(es, available)), ctx2, k)) <= Size(Inlined(Jmp(l, es), ctx1, k))
    decreases k, es, 1
  {
    FactorCostAll(es, available, ctx1, ctx2, k);
    var c1, c2 := ctx1.decls[l].cont, ctx2.decls[l].cont;
    var outer :| Factorable(c1, outer) && c2 == Factor(c1, outer, true);
    FactorCost(c1, outer, true, ctx1, ctx2, k - 1);
    LetsSize(ctx1.decls[l].params, InlinedAll(es, ctx1, k), Inlined(c1, ctx1, k - 1));
    LetsSize(ctx2.decls[l].params, InlinedAll(FactorAll(es, available), ctx2, k), Inlined(c2, ctx2, k - 1));
  }

  lemma {:induction false} FactorCostAll(
    es: Exprs, available: set<string>, ctx1: Context, ctx2: Context, k: nat)
    requires FactoredContext(ctx1, ctx2) && ExpandableAll(es, ctx1, k)
    ensures ExpandableAll(FactorAll(es, available), ctx2, k)
    ensures SizeAll(InlinedAll(FactorAll(es, available), ctx2, k)) <= SizeAll(InlinedAll(es, ctx1, k))
    decreases k, es, 0
  {
    match es
    case Nil =>
    case Cons(e, tail) =>
      FactorCost(e, available, false, ctx1, ctx2, k);
      FactorCostAll(tail, available, ctx1, ctx2, k);
  }

  lemma {:induction false} FactorCostAlts(
    alts: Alts, available: set<string>, tail: bool, ctx1: Context, ctx2: Context, k: nat)
    requires FactoredContext(ctx1, ctx2) && ExpandableAlts(alts, ctx1, k)
    ensures ExpandableAlts(FactorAlts(alts, available, tail), ctx2, k)
    ensures SizeAlts(InlinedAlts(FactorAlts(alts, available, tail), ctx2, k)) <= SizeAlts(InlinedAlts(alts, ctx1, k))
    decreases k, alts
  {
    match alts
    case NoMore =>
    case Default(b) => FactorCost(b, available, tail, ctx1, ctx2, k);
    case Alt(_, _, b, rest) =>
      FactorCost(b, available, tail, ctx1, ctx2, k);
      FactorCostAlts(rest, available, tail, ctx1, ctx2, k);
  }

  // ---- factoring neither loses nor gains an expansion ----

  lemma {:induction false} TakeTailExpands(e: Expr, l: string, ctx: Context, k: nat)
    requires TailDestination(e) == Some(l) && Expandable(TakeTail(e, l), ctx, k)
    requires k > 0 && l in ctx.decls && |ctx.decls[l].params| == 1 && Expandable(ctx.decls[l].cont, ctx, k - 1)
    ensures Expandable(e, ctx, k)
    decreases e
  {
    match e
    case Jmp(_, es) => assert ExpandableAll(es.tail, ctx, k);
    case Let(_, v, b) => TakeTailExpands(b, l, ctx, k);
    case If(c, t, f) =>
      TakeTailExpands(t, l, ctx, k);
      TakeTailExpands(f, l, ctx, k);
    case Match(_, alts) => TakeTailExpandsAlts(alts, l, ctx, k);
  }

  lemma {:induction false} TakeTailExpandsAlts(alts: Alts, l: string, ctx: Context, k: nat)
    requires TailDestinationAlts(alts) == Some(l) && ExpandableAlts(TakeTailAlts(alts, l), ctx, k)
    requires k > 0 && l in ctx.decls && |ctx.decls[l].params| == 1 && Expandable(ctx.decls[l].cont, ctx, k - 1)
    ensures ExpandableAlts(alts, ctx, k)
    decreases alts
  {
    match alts
    case Default(b) => TakeTailExpands(b, l, ctx, k);
    case Alt(_, _, b, rest) =>
      TakeTailExpands(b, l, ctx, k);
      if !rest.NoMore? {
        TakeTailExpandsAlts(rest, l, ctx, k);
      }
  }

  lemma HoistExpands(e: Expr, available: set<string>, tail: bool, ctx: Context, k: nat)
    requires Expandable(Hoist(e, available, tail), ctx, k)
    ensures Expandable(e, ctx, k)
  {
    if Hoist(e, available, tail) != e {
      var l := TailDestination(e).value;
      var es := Cons(TakeTail(e, l), Nil);
      assert ExpandableAll(es, ctx, k) && Len(es) == 1 + Len(Nil);
      TakeTailExpands(e, l, ctx, k);
    }
  }

  lemma {:induction false} FactorExpands(
    e: Expr, available: set<string>, tail: bool, ctx1: Context, ctx2: Context, k: nat)
    requires FactoredContext(ctx1, ctx2) && Expandable(Factor(e, available, tail), ctx2, k)
    ensures Expandable(e, ctx1, k)
    decreases k, e, 1
  {
    match e
    case Lit(_) =>
    case Var(_) =>
    case Param(_) =>
    case Unreachable =>
    case Prim(_, es) => FactorExpandsAll(es, available, ctx1, ctx2, k);
    case If(_, _, _) => FactorExpandsBranches(e, available, tail, ctx1, ctx2, k);
    case Match(_, _) => FactorExpandsBranches(e, available, tail, ctx1, ctx2, k);
    case Let(_, v, b) =>
      FactorExpands(v, available, false, ctx1, ctx2, k);
      FactorExpands(b, if v.Jp? then available + {v.target} else available, tail, ctx1, ctx2, k);
    case Call(_, es) => FactorExpandsAll(es, available, ctx1, ctx2, k);
    case Jp(l, _, c) => if l !in ctx1.jumped { FactorExpands(c, available, true, ctx1, ctx2, k); }
    case Jmp(l, es) =>
      FactorExpandsAll(es, available, ctx1, ctx2, k);
      var c1, c2 := ctx1.decls[l].cont, ctx2.decls[l].cont;
      var outer :| Factorable(c1, outer) && c2 == Factor(c1, outer, true);
      FactorExpands(c1, outer, true, ctx1, ctx2, k - 1);
  }

  lemma {:induction false} FactorExpandsBranches(
    e: Expr, available: set<string>, tail: bool, ctx1: Context, ctx2: Context, k: nat)
    requires e.If? || e.Match?
    requires FactoredContext(ctx1, ctx2) && Expandable(Factor(e, available, tail), ctx2, k)
    ensures Expandable(e, ctx1, k)
    decreases k, e, 0
  {
    if e.If? {
      HoistExpands(If(Factor(e.cond, available, false), Factor(e.yes, available, tail), Factor(e.no, available, tail)),
                   available, tail, ctx2, k);
      FactorExpands(e.cond, available, false, ctx1, ctx2, k);
      FactorExpands(e.yes, available, tail, ctx1, ctx2, k);
      FactorExpands(e.no, available, tail, ctx1, ctx2, k);
    } else {
      HoistExpands(Match(Factor(e.scrut, available, false), FactorAlts(e.alts, available, tail)),
                   available, tail, ctx2, k);
      FactorExpands(e.scrut, available, false, ctx1, ctx2, k);
      FactorExpandsAlts(e.alts, available, tail, ctx1, ctx2, k);
    }
  }

  lemma {:induction false} FactorExpandsAll(
    es: Exprs, available: set<string>, ctx1: Context, ctx2: Context, k: nat)
    requires FactoredContext(ctx1, ctx2) && ExpandableAll(FactorAll(es, available), ctx2, k)
    ensures ExpandableAll(es, ctx1, k)
    decreases k, es, 0
  {
    match es
    case Nil =>
    case Cons(e, tail) =>
      FactorExpands(e, available, false, ctx1, ctx2, k);
      FactorExpandsAll(tail, available, ctx1, ctx2, k);
  }

  lemma {:induction false} FactorExpandsAlts(
    alts: Alts, available: set<string>, tail: bool, ctx1: Context, ctx2: Context, k: nat)
    requires FactoredContext(ctx1, ctx2) && ExpandableAlts(FactorAlts(alts, available, tail), ctx2, k)
    ensures ExpandableAlts(alts, ctx1, k)
    decreases k, alts
  {
    match alts
    case NoMore =>
    case Default(b) => FactorExpands(b, available, tail, ctx1, ctx2, k);
    case Alt(_, _, b, rest) =>
      FactorExpands(b, available, tail, ctx1, ctx2, k);
      FactorExpandsAlts(rest, available, tail, ctx1, ctx2, k);
  }

  // ---- what factoring does to the collected context ----

  lemma {:induction false} TakeTailContext(e: Expr, l: string)
    requires TailDestination(e) == Some(l)
    ensures DeclsOf(TakeTail(e, l)) == DeclsOf(e)
    ensures JumpsOf(TakeTail(e, l)) + {l} == JumpsOf(e)
  {
    match e
    case Jmp(_, es) =>
      assert DeclsOfAll(es) == DeclsOf(es.head) + map[] && JumpsOfAll(es) == JumpsOf(es.head) + {};
    case Let(_, _, b) => TakeTailContext(b, l);
    case If(_, t, f) =>
      TakeTailContext(t, l);
      TakeTailContext(f, l);
    case Match(_, alts) => TakeTailContextAlts(alts, l);
  }

  lemma {:induction false} TakeTailContextAlts(alts: Alts, l: string)
    requires TailDestinationAlts(alts) == Some(l)
    ensures DeclsOfAlts(TakeTailAlts(alts, l)) == DeclsOfAlts(alts)
    ensures JumpsOfAlts(TakeTailAlts(alts, l)) + {l} == JumpsOfAlts(alts)
  {
    match alts
    case Default(b) => TakeTailContext(b, l);
    case Alt(_, _, b, rest) =>
      TakeTailContext(b, l);
      if !rest.NoMore? {
        TakeTailContextAlts(rest, l);
      }
  }

  lemma HoistContext(e: Expr, available: set<string>, tail: bool)
    ensures DeclsOf(Hoist(e, available, tail)) == DeclsOf(e)
    ensures JumpsOf(Hoist(e, available, tail)) == JumpsOf(e)
  {
    if Hoist(e, available, tail) != e {
      var l := TailDestination(e).value;
      TakeTailContext(e, l);
      SingleContext(TakeTail(e, l));
    }
  }

  lemma SingleContext(arg: Expr)
    ensures DeclsOfAll(Cons(arg, Nil)) == DeclsOf(arg) && JumpsOfAll(Cons(arg, Nil)) == JumpsOf(arg)
  {
    var single := Cons(arg, Nil);
    assert DeclsOfAll(single.tail) == map[] && JumpsOfAll(single.tail) == {};
    assert DeclsOfAll(single) == DeclsOf(single.head) + DeclsOfAll(single.tail);
    assert JumpsOfAll(single) == JumpsOf(single.head) + JumpsOfAll(single.tail);
  }

  lemma {:induction false} FactorContext(e: Expr, available: set<string>, tail: bool)
    requires Factorable(e, available)
    ensures FactoredDecls(DeclsOf(e), DeclsOf(Factor(e, available, tail)))
    ensures JumpsOf(Factor(e, available, tail)) == JumpsOf(e)
    decreases e, 1
  {
    match e
    case Lit(_) =>
    case Var(_) =>
    case Param(_) =>
    case Unreachable =>
    case Prim(_, es) => FactorContextAll(es, available);
    case If(_, _, _) => FactorContextIf(e, available, tail);
    case Match(_, _) => FactorContextMatch(e, available, tail);
    case Let(_, _, _) => FactorContextLet(e, available, tail);
    case Call(_, es) => FactorContextAll(es, available);
    case Jp(l, _, c) =>
      assert Factorable(c, available);
      FactorContext(c, available, true);
    case Jmp(_, es) => FactorContextAll(es, available);
  }

  lemma {:induction false} FactorContextLet(e: Expr, available: set<string>, tail: bool)
    requires e.Let? && Factorable(e, available)
    ensures FactoredDecls(DeclsOf(e), DeclsOf(Factor(e, available, tail)))
    ensures JumpsOf(Factor(e, available, tail)) == JumpsOf(e)
    decreases e, 0
  {
    FactorContext(e.value, available, false);
    FactorContext(e.body, if e.value.Jp? then available + {e.value.target} else available, tail);
  }

  lemma {:induction false} FactorContextIf(e: Expr, available: set<string>, tail: bool)
    requires e.If? && Factorable(e, available)
    ensures FactoredDecls(DeclsOf(e), DeclsOf(Factor(e, available, tail)))
    ensures JumpsOf(Factor(e, available, tail)) == JumpsOf(e)
    decreases e, 0
  {
    FactorContext(e.cond, available, false);
    FactorContext(e.yes, available, tail);
    FactorContext(e.no, available, tail);
    HoistContext(If(Factor(e.cond, available, false), Factor(e.yes, available, tail), Factor(e.no, available, tail)),
                 available, tail);
  }

  lemma {:induction false} FactorContextMatch(e: Expr, available: set<string>, tail: bool)
    requires e.Match? && Factorable(e, available)
    ensures FactoredDecls(DeclsOf(e), DeclsOf(Factor(e, available, tail)))
    ensures JumpsOf(Factor(e, available, tail)) == JumpsOf(e)
    decreases e, 0
  {
    FactorContext(e.scrut, available, false);
    FactorContextAlts(e.alts, available, tail);
    HoistContext(Match(Factor(e.scrut, available, false), FactorAlts(e.alts, available, tail)), available, tail);
  }

  lemma {:induction false} FactorContextAll(es: Exprs, available: set<string>)
    requires UniqueAll(es) && Fresh(available, BoundAll(es))
    ensures FactoredDecls(DeclsOfAll(es), DeclsOfAll(FactorAll(es, available)))
    ensures JumpsOfAll(FactorAll(es, available)) == JumpsOfAll(es)
  {
    match es
    case Nil =>
    case Cons(e, tail) =>
      FactorContext(e, available, false);
      FactorContextAll(tail, available);
  }

  lemma {:induction false} FactorContextAlts(alts: Alts, available: set<string>, tail: bool)
    requires UniqueAlts(alts) && Fresh(available, BoundAlts(alts))
    ensures FactoredDecls(DeclsOfAlts(alts), DeclsOfAlts(FactorAlts(alts, available, tail)))
    ensures JumpsOfAlts(FactorAlts(alts, available, tail)) == JumpsOfAlts(alts)
  {
    match alts
    case NoMore =>
    case Default(b) => FactorContext(b, available, tail);
    case Alt(_, _, b, rest) =>
      FactorContext(b, available, tail);
      FactorContextAlts(rest, available, tail);
  }

  /** Factoring never turns an expansion within the limits into one outside them. */
  lemma FactoringNeverGrows(body: Expr, k: nat)
    requires Unique(body) && Expandable(body, Collect(body), k)
    ensures var body' := Factor(body, {}, true);
      && Expandable(body', Collect(body'), k)
      && Size(body') <= Size(body)
      && Size(Inlined(body', Collect(body'), k)) <= Size(Inlined(body, Collect(body), k))
      && Nest(body', Collect(body'), k) <= Nest(body, Collect(body), k)
  {
    var body' := Factor(body, {}, true);
    var least := Nest(body, Collect(body), k);
    FactorContext(body, {}, true);
    FactorNames(body, {}, true);
    FactorCost(body, {}, true, Collect(body), Collect(body'), k);
    Stable(body, Collect(body), k, least);
    FactorCost(body, {}, true, Collect(body), Collect(body'), least);
    Stable(body', Collect(body'), least, k);
  }

  /** Factoring keeps expandability at every budget, and so the exact nesting. */
  lemma FactoringKeepsNesting(body: Expr, k: nat)
    requires Unique(body)
    ensures var body' := Factor(body, {}, true);
      && (Expandable(body', Collect(body'), k) <==> Expandable(body, Collect(body), k))
      && (Expandable(body, Collect(body), k) ==>
            Nest(body', Collect(body'), k) == Nest(body, Collect(body), k))
  {
    var body' := Factor(body, {}, true);
    FactorContext(body, {}, true);
    if Expandable(body', Collect(body'), k) {
      FactorExpands(body, {}, true, Collect(body), Collect(body'), k);
    }
    if Expandable(body, Collect(body), k) {
      FactoringNeverGrows(body, k);
      var least := Nest(body', Collect(body'), k);
      Stable(body', Collect(body'), k, least);
      FactorExpands(body, {}, true, Collect(body), Collect(body'), least);
      Stable(body, Collect(body), least, k);
    }
  }

  // ---- the checks, and what they establish ----

  /** No join is jumped to from inside its own continuation. */
  predicate Acyclic(ctx: Context) {
    forall l :: l in ctx.decls ==> l !in JumpsOf(ctx.decls[l].cont)
  }

  predicate Fits(body: Expr) {
    var ctx := Collect(body);
    Expandable(body, ctx, MAX_DEPTH) && Size(Inlined(body, ctx, MAX_DEPTH)) <= MAX_NODES
  }

  predicate Accepts(body: Expr) {
    Acyclic(Collect(body)) && ValidJumps(body, Collect(body)) && Fits(body)
  }

  lemma {:induction false} ContsValid(e: Expr, ctx: Context)
    requires ValidJumps(e, ctx)
    ensures forall l :: l in DeclsOf(e) ==> ValidJumps(DeclsOf(e)[l].cont, ctx)
  {
    match e
    case Lit(_) =>
    case Var(_) =>
    case Param(_) =>
    case Unreachable =>
    case Prim(_, es) => ContsValidAll(es, ctx);
    case If(c, t, f) =>
      assert c in Children(e) && t in Children(e) && f in Children(e);
      ContsValid(c, ctx);
      ContsValid(t, ctx);
      ContsValid(f, ctx);
    case Let(_, v, b) =>
      assert v in Children(e) && b in Children(e);
      ContsValid(v, ctx);
      ContsValid(b, ctx);
    case Match(s, alts) =>
      assert s in Children(e) && forall c :: c in Bodies(alts) ==> c in Children(e);
      ContsValid(s, ctx);
      ContsValidAlts(alts, ctx);
    case Call(_, es) => ContsValidAll(es, ctx);
    case Jp(_, _, c) =>
      assert c in Children(e);
      ContsValid(c, ctx);
    case Jmp(_, es) => ContsValidAll(es, ctx);
  }

  lemma {:induction false} ContsValidAll(es: Exprs, ctx: Context)
    requires forall c :: c in Listed(es) ==> ValidJumps(c, ctx)
    ensures forall l :: l in DeclsOfAll(es) ==> ValidJumps(DeclsOfAll(es)[l].cont, ctx)
  {
    match es
    case Nil =>
    case Cons(e, tail) =>
      assert e in Listed(es) && forall c :: c in Listed(tail) ==> c in Listed(es);
      ContsValid(e, ctx);
      ContsValidAll(tail, ctx);
  }

  lemma {:induction false} ContsValidAlts(alts: Alts, ctx: Context)
    requires forall c :: c in Bodies(alts) ==> ValidJumps(c, ctx)
    ensures forall l :: l in DeclsOfAlts(alts) ==> ValidJumps(DeclsOfAlts(alts)[l].cont, ctx)
  {
    match alts
    case NoMore =>
    case Default(b) =>
      assert b in Bodies(alts);
      ContsValid(b, ctx);
    case Alt(_, _, b, rest) =>
      assert b in Bodies(alts) && forall c :: c in Bodies(rest) ==> c in Bodies(alts);
      ContsValid(b, ctx);
      ContsValidAlts(rest, ctx);
  }

  method Check(body: Expr) returns (r: Result<Cost, Error>)
    requires Acyclic(Collect(body)) && ValidJumps(body, Collect(body))
    ensures r.Success? <==> Fits(body)
    ensures r.Success? ==> r.value.nodes == Size(Inlined(body, Collect(body), MAX_DEPTH))
    ensures r.Success? ==> r.value.depth == Nest(body, Collect(body), MAX_DEPTH)
    ensures r == Failure(UnsupportedJoinPoint) ==> Never(body, Collect(body))
  {
    ContsValid(body, Collect(body));
    var table := new Table(Collect(body));
    r := table.Measure(body);
  }

  method Inline(body: Expr) returns (r: Result<Expr, Error>)
    requires ValidJumps(body, Collect(body)) && Fits(body)
    ensures r == Success(Inlined(body, Collect(body), MAX_DEPTH))
  {
    var ctx := Collect(body);
    ContsValid(body, ctx);
    var expander := new Expander(ctx);
    r := expander.Expression(body);
    if r.Success? {
      Stable(body, ctx, |ctx.decls.Keys|, |ctx.decls.Keys| + MAX_DEPTH);
      Stable(body, ctx, MAX_DEPTH, |ctx.decls.Keys| + MAX_DEPTH);
      assert ctx.decls.Keys - {} == ctx.decls.Keys;
    }
  }

  /** A jump cycle, a bad arity, or an expansion past the limits, factored or not. */
  ghost predicate Refusable(body: Expr) {
    || !Acyclic(Collect(body))
    || !ValidJumps(body, Collect(body))
    || CycleReachable(body)
    || (!Fits(body) && (Size(body) > MAX_NODES || !Accepts(Factor(body, {}, true))))
  }

  /** An accepted body has no reachable jump cycle, whichever way it was accepted. */
  lemma AcceptedAcyclic(body: Expr, on: bool)
    requires ValidJumps(body, Collect(body)) && Accepts(Image(body, on, {}, true)) && (on ==> Unique(body))
    ensures !CycleReachable(body)
  {
    ContsValid(body, Collect(body));
    NeverExpands(body);
    if on {
      FactoringKeepsNesting(body, MAX_DEPTH);
    }
  }

  lemma NoJoinsAcyclic(body: Expr)
    requires DeclsOf(body) == map[]
    ensures !CycleReachable(body)
  {}

  /** `None` leaves a definition without joins as it is. */
  method Expand(d: Definition) returns (r: Result<Option<Definition>, Error>)
    ensures r == Success(None) <==> DeclsOf(d.body) == map[]
    ensures r.Success? && r.value.Some? ==>
      && r.value.value == d.(body := r.value.value.body)
      && ExpandedBody(d.body, r.value.value.body)
      && JoinFree(r.value.value.body)
      && Size(r.value.value.body) <= MAX_NODES
    ensures DeclsOf(d.body) != map[] && Accepts(d.body) ==>
      r == Success(Some(d.(body := Inlined(d.body, Collect(d.body), MAX_DEPTH))))
    ensures r.Failure? ==> Refusable(d.body)
    ensures r.Success? && Unique(d.body) ==> !CycleReachable(d.body)
  {
    var ctx := CollectJoins(d.body);
    if ctx.decls == map[] {
      NoJoinsAcyclic(d.body);
      return Success(None);
    }
    if !Acyclic(ctx) || !ValidJumps(d.body, ctx) {
      return Failure(UnsupportedJoinPoint);
    }
    var checked := Check(d.body);
    if checked.Failure? && checked.error.JoinExpansionLimit? {
      if Size(d.body) > MAX_NODES {
        return Failure(JoinExpansionLimit);
      }
      var factorer := new Factorer();
      var compact := factorer.Expression(d.body, true);
      if !Acyclic(Collect(compact)) || !ValidJumps(compact, Collect(compact)) {
        return Failure(UnsupportedJoinPoint);
      }
      checked := Check(compact);
      if checked.Failure? {
        return Failure(checked.error);
      }
      var inlined := Inline(compact);
      InlinedJoinFree(compact, Collect(compact), MAX_DEPTH);
      assert compact == Image(d.body, true, {}, true);
      if Unique(d.body) {
        AcceptedAcyclic(d.body, true);
      }
      return Success(Some(d.(body := inlined.value)));
    }
    if checked.Failure? {
      assert checked == Failure(UnsupportedJoinPoint);
      ContsValid(d.body, ctx);
      NeverExpands(d.body);
      return Failure(checked.error);
    }
    var inlined := Inline(d.body);
    InlinedJoinFree(d.body, ctx, MAX_DEPTH);
    assert d.body == Image(d.body, false, {}, true);
    AcceptedAcyclic(d.body, false);
    return Success(Some(d.(body := inlined.value)));
  }

  /** What `Expand` may turn a body with joins into. */
  ghost predicate ExpandedBody(body: Expr, body': Expr) {
    exists on: bool :: ExpandedFrom(Image(body, on, {}, true), body')
  }

  ghost predicate ExpandedFrom(x: Expr, body': Expr) {
    Accepts(x) && body' == Inlined(x, Collect(x), MAX_DEPTH)
  }

  // ---- the pass preserves meaning ----

  lemma {:induction false} DeclaredLabels(e: Expr)
    ensures forall l :: l in DeclsOf(e) <==> L(l) in Bound(e)
  {
    match e
    case Lit(_) =>
    case Var(_) =>
    case Param(_) =>
    case Unreachable =>
    case Prim(_, es) => DeclaredLabelsAll(es);
    case If(c, t, f) =>
      DeclaredLabels(c);
      DeclaredLabels(t);
      DeclaredLabels(f);
    case Let(_, v, b) =>
      DeclaredLabels(v);
      DeclaredLabels(b);
    case Match(s, alts) =>
      DeclaredLabels(s);
      DeclaredLabelsAlts(alts);
    case Call(_, es) => DeclaredLabelsAll(es);
    case Jp(_, _, c) => DeclaredLabels(c);
    case Jmp(_, es) => DeclaredLabelsAll(es);
  }

  lemma {:induction false} DeclaredLabelsAll(es: Exprs)
    ensures forall l :: l in DeclsOfAll(es) <==> L(l) in BoundAll(es)
  {
    match es
    case Nil =>
    case Cons(e, tail) =>
      DeclaredLabels(e);
      DeclaredLabelsAll(tail);
  }

  lemma {:induction false} DeclaredLabelsAlts(alts: Alts)
    ensures forall l :: l in DeclsOfAlts(alts) <==> L(l) in BoundAlts(alts)
  {
    match alts
    case NoMore =>
    case Default(b) => DeclaredLabels(b);
    case Alt(_, _, b, rest) =>
      DeclaredLabels(b);
      DeclaredLabelsAlts(rest);
  }

  lemma {:induction false} FreeLabels(e: Expr)
    ensures forall l :: L(l) in Free(e) ==> l in JumpsOf(e)
  {
    match e
    case Lit(_) =>
    case Var(_) =>
    case Param(_) =>
    case Unreachable =>
    case Prim(_, es) => FreeLabelsAll(es);
    case If(c, t, f) =>
      FreeLabels(c);
      FreeLabels(t);
      FreeLabels(f);
    case Let(_, v, b) =>
      FreeLabels(v);
      FreeLabels(b);
    case Match(s, alts) =>
      FreeLabels(s);
      FreeLabelsAlts(alts);
    case Call(_, es) => FreeLabelsAll(es);
    case Jp(_, _, c) => FreeLabels(c);
    case Jmp(_, es) => FreeLabelsAll(es);
  }

  lemma {:induction false} FreeLabelsAll(es: Exprs)
    ensures forall l :: L(l) in FreeAll(es) ==> l in JumpsOfAll(es)
  {
    match es
    case Nil =>
    case Cons(e, tail) =>
      FreeLabels(e);
      FreeLabelsAll(tail);
  }

  lemma {:induction false} FreeLabelsAlts(alts: Alts)
    ensures forall l :: L(l) in FreeAlts(alts) ==> l in JumpsOfAlts(alts)
  {
    match alts
    case NoMore =>
    case Default(b) => FreeLabels(b);
    case Alt(_, _, b, rest) =>
      FreeLabels(b);
      FreeLabelsAlts(rest);
  }

  /** `ctx` records each of these declarations, none of them dead or cyclic. */
  ghost predicate Sound(decls: map<string, Decl>, ctx: Context) {
    forall l :: l in decls ==>
      && l in ctx.decls && ctx.decls[l] == decls[l]
      && l in ctx.jumped
      && l !in JumpsOf(decls[l].cont)
  }

  lemma {:induction false} Records(e: Expr, ctx: Context)
    requires Unique(e) && Sound(DeclsOf(e), ctx)
    ensures Recorded(e, ctx)
  {
    match e
    case Lit(_) =>
    case Var(_) =>
    case Param(_) =>
    case Unreachable =>
    case Prim(_, es) => RecordsAll(es, ctx);
    case If(c, t, f) =>
      DeclaredLabels(c);
      DeclaredLabels(t);
      DeclaredLabels(f);
      Records(c, ctx);
      Records(t, ctx);
      Records(f, ctx);
    case Let(_, v, b) =>
      DeclaredLabels(v);
      DeclaredLabels(b);
      Records(v, ctx);
      Records(b, ctx);
    case Match(s, alts) =>
      DeclaredLabels(s);
      DeclaredLabelsAlts(alts);
      Records(s, ctx);
      RecordsAlts(alts, ctx);
    case Call(_, es) => RecordsAll(es, ctx);
    case Jp(l, ps, c) =>
      DeclaredLabels(c);
      FreeLabels(c);
      assert l in DeclsOf(e) && DeclsOf(e)[l] == Decl(ps, c);
      Records(c, ctx);
    case Jmp(_, es) => RecordsAll(es, ctx);
  }

  lemma {:induction false} RecordsAll(es: Exprs, ctx: Context)
    requires UniqueAll(es) && Sound(DeclsOfAll(es), ctx)
    ensures RecordedAll(es, ctx)
  {
    match es
    case Nil =>
    case Cons(e, tail) =>
      DeclaredLabels(e);
      DeclaredLabelsAll(tail);
      Records(e, ctx);
      RecordsAll(tail, ctx);
  }

  lemma {:induction false} RecordsAlts(alts: Alts, ctx: Context)
    requires UniqueAlts(alts) && Sound(DeclsOfAlts(alts), ctx)
    ensures RecordedAlts(alts, ctx)
  {
    match alts
    case NoMore =>
    case Default(b) => Records(b, ctx);
    case Alt(_, _, b, rest) =>
      DeclaredLabels(b);
      DeclaredLabelsAlts(rest);
      Records(b, ctx);
      RecordsAlts(rest, ctx);
  }

  /** Only declarations and jumps keep a term from being join-free. */
  lemma {:induction false} JoinOrigin(e: Expr) returns (l: string)
    ensures JoinFree(e) || l in DeclsOf(e) || L(l) in Free(e)
  {
    l := "";
    match e
    case Lit(_) =>
    case Var(_) =>
    case Param(_) =>
    case Unreachable =>
    case Prim(_, es) => l := JoinOriginAll(es);
    case If(c, t, f) =>
      l := JoinOrigin(if !JoinFree(c) then c else if !JoinFree(t) then t else f);
    case Let(_, v, b) =>
      l := JoinOrigin(if !JoinFree(v) then v else b);
    case Match(s, alts) =>
      if JoinFree(s) {
        l := JoinOriginAlts(alts);
      } else {
        l := JoinOrigin(s);
      }
    case Call(_, es) => l := JoinOriginAll(es);
    case Jp(g, _, _) => l := g;
    case Jmp(g, _) => l := g;
  }

  lemma {:induction false} JoinOriginAll(es: Exprs) returns (l: string)
    ensures JoinFreeAll(es) || l in DeclsOfAll(es) || L(l) in FreeAll(es)
  {
    l := "";
    match es
    case Nil =>
    case Cons(e, tail) =>
      if JoinFree(e) {
        l := JoinOriginAll(tail);
      } else {
        l := JoinOrigin(e);
      }
  }

  lemma {:induction false} JoinOriginAlts(alts: Alts) returns (l: string)
    ensures JoinFreeAlts(alts) || l in DeclsOfAlts(alts) || L(l) in FreeAlts(alts)
  {
    l := "";
    match alts
    case NoMore =>
    case Default(b) => l := JoinOrigin(b);
    case Alt(_, _, b, rest) =>
      if JoinFree(b) {
        l := JoinOriginAlts(rest);
      } else {
        l := JoinOrigin(b);
      }
  }

  lemma {:induction false} JoinFreeInlined(e: Expr, ctx: Context, k: nat)
    requires JoinFree(e)
    ensures Expandable(e, ctx, k) && Inlined(e, ctx, k) == e
    decreases e
  {
    match e
    case Lit(_) =>
    case Var(_) =>
    case Param(_) =>
    case Unreachable =>
    case Prim(_, es) => JoinFreeInlinedAll(es, ctx, k);
    case If(c, t, f) =>
      JoinFreeInlined(c, ctx, k);
      JoinFreeInlined(t, ctx, k);
      JoinFreeInlined(f, ctx, k);
    case Let(_, v, b) =>
      JoinFreeInlined(v, ctx, k);
      JoinFreeInlined(b, ctx, k);
    case Match(s, alts) =>
      JoinFreeInlined(s, ctx, k);
      JoinFreeInlinedAlts(alts, ctx, k);
    case Call(_, es) => JoinFreeInlinedAll(es, ctx, k);
  }

  lemma {:induction false} JoinFreeInlinedAll(es: Exprs, ctx: Context, k: nat)
    requires JoinFreeAll(es)
    ensures ExpandableAll(es, ctx, k) && InlinedAll(es, ctx, k) == es
    decreases es
  {
    match es
    case Nil =>
    case Cons(e, tail) =>
      JoinFreeInlined(e, ctx, k);
      JoinFreeInlinedAll(tail, ctx, k);
  }

  lemma {:induction false} JoinFreeInlinedAlts(alts: Alts, ctx: Context, k: nat)
    requires JoinFreeAlts(alts)
    ensures ExpandableAlts(alts, ctx, k) && InlinedAlts(alts, ctx, k) == alts
    decreases alts
  {
    match alts
    case NoMore =>
    case Default(b) => JoinFreeInlined(b, ctx, k);
    case Alt(_, _, b, rest) =>
      JoinFreeInlined(b, ctx, k);
      JoinFreeInlinedAlts(rest, ctx, k);
  }

  /** Alpha-unique, closed over its parameters, and jumping only to joins in scope. */
  ghost predicate Lexical(params: seq<string>, body: Expr) {
    && Unique(body)
    && Over(Free(body), Bound(body), Names(params))
    && (forall l :: L(l) !in Free(body))
  }

  /** Every declared join has a jump: otherwise its body is emitted as a block. */
  predicate NoDeadJoins(body: Expr) {
    DeclsOf(body).Keys <= JumpsOf(body)
  }

  ghost predicate PassResult(body: Expr, body': Expr) {
    if DeclsOf(body) == map[] then body' == body else ExpandedBody(body, body')
  }

  ghost predicate PassedMachine(m1: Machine, m2: Machine) {
    && m1.bounded == m2.bounded
    && m1.jumps >= MAX_DEPTH
    && m1.defs.Keys == m2.defs.Keys
    && (forall f :: f in m1.defs ==>
          && m1.defs[f].params == m2.defs[f].params
          && PassResult(m1.defs[f].body, m2.defs[f].body))
  }

  /** The tree the accepted expansion started from. */
  ghost function Middle(body: Expr, body': Expr): Expr {
    if DeclsOf(body) != map[] && !ExpandedFrom(body, body') then Factor(body, {}, true) else body
  }

  // ---- dead joins are the exception ----

  /** A dead join: declared, never jumped to. */
  function DeadJoin(g: string, ps: seq<string>, cont: Expr, body: Expr): Expr {
    Let(g, Jp(g, ps, cont), body)
  }

  /** A dead join is emitted as a block, so its body runs; lexically it never does.  The two
      meanings of the let agree exactly when the block succeeds, or fails as the rest does. */
  lemma DeadJoinRuns(m: Machine, calls: nat, jumps: nat, actuals: seq<Value>,
                     g: string, ps: seq<string>, cont: Expr, body: Expr, env: Env)
    requires JoinFree(cont) && JoinFree(body) && V(g) !in Free(body)
    ensures var e := DeadJoin(g, ps, cont, body);
      var ctx := Collect(e);
      var block := Eval(m, calls, jumps, actuals, cont, env, NoJoin);
      && Expandable(e, ctx, 0)
      && (Eval(m, calls, jumps, actuals, e, env, NoJoin)
            == Eval(m, calls, jumps, actuals, Inlined(e, ctx, 0), env, NoJoin)
          <==> block.Ok? || block == Eval(m, calls, jumps, actuals, body, env, NoJoin))
  {
    var e := DeadJoin(g, ps, cont, body);
    NoJumps(cont);
    NoJumps(body);
    assert JumpsOf(e) == {};
    JoinFreeInlined(cont, Collect(e), 0);
    JoinFreeInlined(body, Collect(e), 0);
    assert Inlined(e, Collect(e), 0) == Let(g, cont, body);
    var unit := env[g := UnitValue];
    JoinsUnused(m, calls, jumps, actuals, body, unit, Visible(e.value, env, NoJoin));
    Coincidence(m, calls, jumps, actuals, body, unit, env);
    var block := Eval(m, calls, jumps, actuals, cont, env, NoJoin);
    if block.Ok? {
      Coincidence(m, calls, jumps, actuals, body, env[g := block.value], env);
    }
  }

  lemma {:induction false} NoJumps(e: Expr)
    requires JoinFree(e)
    ensures JumpsOf(e) == {} && DeclsOf(e) == map[] && (forall l :: L(l) !in Free(e))
  {
    match e
    case Lit(_) =>
    case Var(_) =>
    case Param(_) =>
    case Unreachable =>
    case Prim(_, es) => NoJumpsAll(es);
    case If(c, t, f) =>
      NoJumps(c);
      NoJumps(t);
      NoJumps(f);
    case Let(_, v, b) =>
      NoJumps(v);
      NoJumps(b);
    case Match(s, alts) =>
      NoJumps(s);
      NoJumpsAlts(alts);
    case Call(_, es) => NoJumpsAll(es);
  }

  lemma {:induction false} NoJumpsAll(es: Exprs)
    requires JoinFreeAll(es)
    ensures JumpsOfAll(es) == {} && DeclsOfAll(es) == map[] && (forall l :: L(l) !in FreeAll(es))
  {
    match es
    case Nil =>
    case Cons(e, tail) =>
      NoJumps(e);
      NoJumpsAll(tail);
  }

  lemma {:induction false} NoJumpsAlts(alts: Alts)
    requires JoinFreeAlts(alts)
    ensures JumpsOfAlts(alts) == {} && DeclsOfAlts(alts) == map[] && (forall l :: L(l) !in FreeAlts(alts))
  {
    match alts
    case NoMore =>
    case Default(b) => NoJumps(b);
    case Alt(_, _, b, rest) =>
      NoJumps(b);
      NoJumpsAlts(rest);
  }
}
