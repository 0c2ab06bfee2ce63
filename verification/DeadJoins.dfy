/** Dead joins: declared, never jumped to, and emitted as blocks.

    Lexically such a continuation never runs; emitted as a block it does.  `TameBody` is what
    a caller can check to know that this does no harm, for any number of dead joins.
    `ExpansionRefinesRuns` is the preservation theorem under that condition, `InertHeadExact`
    the exact condition for a dead join that computes nothing, and `DeadJoinPanics` the example
    of an accepted body whose run changes.
 */
module DeadJoins {
  import opened Ir
  import opened Semantics
  import opened JoinExpansion
  import opened JoinCost
  import opened Fallibility
  import opened JoinFactoring
  import opened JoinPass
  import opened Wrappers

  // ---- harmless blocks ----

  /** Nothing that computes: literals, variables and the construction of values. */
  predicate Inert(e: Expr) {
    match e
    case Lit(_) => true
    case Var(_) => true
    case Prim(op, es) => op.Ctor? && !(op.name == "List.cons" && Len(es) == 2) && InertAll(es)
    case Let(_, v, b) => Inert(v) && Inert(b)
    case _ => false
  }

  predicate InertAll(es: Exprs) {
    match es
    case Nil => true
    case Cons(e, tail) => Inert(e) && InertAll(tail)
  }

  /** Nothing that can fail or panic: no checked operator, no call, no `unreachable`. */
  predicate Quiet(e: Expr) {
    match e
    case Lit(_) => true
    case Var(_) => true
    case Param(_) => true
    case Prim(op, es) => !CheckedOp(op) && QuietAll(es)
    case If(c, t, f) => Quiet(c) && Quiet(t) && Quiet(f)
    case Let(_, v, b) => Quiet(v) && Quiet(b)
    case Match(s, alts) => Quiet(s) && QuietAlts(alts)
    case _ => false
  }

  predicate QuietAll(es: Exprs) {
    match es
    case Nil => true
    case Cons(e, tail) => Quiet(e) && QuietAll(tail)
  }

  predicate QuietAlts(alts: Alts) {
    match alts
    case NoMore => true
    case Default(b) => Quiet(b)
    case Alt(_, _, b, rest) => Quiet(b) && QuietAlts(rest)
  }

  /** A dead continuation that may run: it does not use its own parameters, and computes
      nothing (`strict`) or nothing that can fail. */
  predicate Harmless(c: Expr, ps: seq<string>, strict: bool) {
    Quiet(c) && (strict ==> Inert(c)) && Vars(ps) !! Free(c)
  }

  /** Every join without a jump is bound by a let that ignores it, and is harmless. */
  predicate Tame(e: Expr, live: set<string>, strict: bool) {
    match e
    case Lit(_) => true
    case Var(_) => true
    case Param(_) => true
    case Prim(_, es) => TameAll(es, live, strict)
    case If(c, t, f) => Tame(c, live, strict) && Tame(t, live, strict) && Tame(f, live, strict)
    case Let(x, v, b) =>
      && Tame(b, live, strict)
      && if v.Jp? && v.target !in live then V(x) !in Free(b) && Harmless(v.cont, v.params, strict)
         else Tame(v, live, strict)
    case Match(s, alts) => Tame(s, live, strict) && TameAlts(alts, live, strict)
    case Call(_, es) => TameAll(es, live, strict)
    case Jp(l, _, c) => l in live && Tame(c, live, strict)
    case Jmp(_, es) => TameAll(es, live, strict)
    case Unreachable => true
  }

  predicate TameAll(es: Exprs, live: set<string>, strict: bool) {
    match es
    case Nil => true
    case Cons(e, tail) => Tame(e, live, strict) && TameAll(tail, live, strict)
  }

  predicate TameAlts(alts: Alts, live: set<string>, strict: bool) {
    match alts
    case NoMore => true
    case Default(b) => Tame(b, live, strict)
    case Alt(_, _, b, rest) => Tame(b, live, strict) && TameAlts(rest, live, strict)
  }

  /** What a caller checks of a body. */
  predicate TameBody(body: Expr, strict: bool) {
    Tame(body, JumpsOf(body), strict)
  }

  lemma {:induction false} QuietJoinFree(e: Expr)
    requires Quiet(e)
    ensures JoinFree(e)
  {
    match e
    case Lit(_) =>
    case Var(_) =>
    case Param(_) =>
    case Prim(_, es) => QuietJoinFreeAll(es);
    case If(c, t, f) =>
      QuietJoinFree(c);
      QuietJoinFree(t);
      QuietJoinFree(f);
    case Let(_, v, b) =>
      QuietJoinFree(v);
      QuietJoinFree(b);
    case Match(s, alts) =>
      QuietJoinFree(s);
      QuietJoinFreeAlts(alts);
  }

  lemma {:induction false} QuietJoinFreeAll(es: Exprs)
    requires QuietAll(es)
    ensures JoinFreeAll(es)
  {
    match es
    case Nil =>
    case Cons(e, tail) =>
      QuietJoinFree(e);
      QuietJoinFreeAll(tail);
  }

  lemma {:induction false} QuietJoinFreeAlts(alts: Alts)
    requires QuietAlts(alts)
    ensures JoinFreeAlts(alts)
  {
    match alts
    case NoMore =>
    case Default(b) => QuietJoinFree(b);
    case Alt(_, _, b, rest) =>
      QuietJoinFree(b);
      QuietJoinFreeAlts(rest);
  }

  lemma {:induction false} InertQuiet(e: Expr)
    requires Inert(e)
    ensures Quiet(e)
  {
    match e
    case Lit(_) =>
    case Var(_) =>
    case Prim(_, es) => InertQuietAll(es);
    case Let(_, v, b) =>
      InertQuiet(v);
      InertQuiet(b);
  }

  lemma {:induction false} InertQuietAll(es: Exprs)
    requires InertAll(es)
    ensures QuietAll(es)
  {
    match es
    case Nil =>
    case Cons(e, tail) =>
      InertQuiet(e);
      InertQuietAll(tail);
  }

  // ---- declarations recorded as they stand ----

  /** Every join is recorded with its own parameters and continuation. */
  predicate Known(e: Expr, ctx: Context) {
    match e
    case Lit(_) => true
    case Var(_) => true
    case Param(_) => true
    case Prim(_, es) => KnownAll(es, ctx)
    case If(c, t, f) => Known(c, ctx) && Known(t, ctx) && Known(f, ctx)
    case Let(_, v, b) => Known(v, ctx) && Known(b, ctx)
    case Match(s, alts) => Known(s, ctx) && KnownAlts(alts, ctx)
    case Call(_, es) => KnownAll(es, ctx)
    case Jp(l, ps, c) => l in ctx.decls && ctx.decls[l] == Decl(ps, c) && Known(c, ctx)
    case Jmp(_, es) => KnownAll(es, ctx)
    case Unreachable => true
  }

  predicate KnownAll(es: Exprs, ctx: Context) {
    match es
    case Nil => true
    case Cons(e, tail) => Known(e, ctx) && KnownAll(tail, ctx)
  }

  predicate KnownAlts(alts: Alts, ctx: Context) {
    match alts
    case NoMore => true
    case Default(b) => Known(b, ctx)
    case Alt(_, _, b, rest) => Known(b, ctx) && KnownAlts(rest, ctx)
  }

  ghost predicate Recording(decls: map<string, Decl>, ctx: Context) {
    forall l :: l in decls ==> l in ctx.decls && ctx.decls[l] == decls[l]
  }

  lemma {:induction false} UniqueKnown(e: Expr, ctx: Context)
    requires Unique(e) && Recording(DeclsOf(e), ctx)
    ensures Known(e, ctx)
  {
    match e
    case Lit(_) =>
    case Var(_) =>
    case Param(_) =>
    case Unreachable =>
    case Prim(_, es) => UniqueKnownAll(es, ctx);
    case If(c, t, f) =>
      DeclaredLabels(c);
      DeclaredLabels(t);
      DeclaredLabels(f);
      UniqueKnown(c, ctx);
      UniqueKnown(t, ctx);
      UniqueKnown(f, ctx);
    case Let(_, v, b) =>
      DeclaredLabels(v);
      DeclaredLabels(b);
      UniqueKnown(v, ctx);
      UniqueKnown(b, ctx);
    case Match(s, alts) =>
      DeclaredLabels(s);
      DeclaredLabelsAlts(alts);
      UniqueKnown(s, ctx);
      UniqueKnownAlts(alts, ctx);
    case Call(_, es) => UniqueKnownAll(es, ctx);
    case Jp(l, ps, c) =>
      DeclaredLabels(c);
      assert l in DeclsOf(e) && DeclsOf(e)[l] == Decl(ps, c);
      UniqueKnown(c, ctx);
    case Jmp(_, es) => UniqueKnownAll(es, ctx);
  }

  lemma {:induction false} UniqueKnownAll(es: Exprs, ctx: Context)
    requires UniqueAll(es) && Recording(DeclsOfAll(es), ctx)
    ensures KnownAll(es, ctx)
  {
    match es
    case Nil =>
    case Cons(e, tail) =>
      DeclaredLabels(e);
      DeclaredLabelsAll(tail);
      UniqueKnown(e, ctx);
      UniqueKnownAll(tail, ctx);
  }

  lemma {:induction false} UniqueKnownAlts(alts: Alts, ctx: Context)
    requires UniqueAlts(alts) && Recording(DeclsOfAlts(alts), ctx)
    ensures KnownAlts(alts, ctx)
  {
    match alts
    case NoMore =>
    case Default(b) => UniqueKnown(b, ctx);
    case Alt(_, _, b, rest) =>
      DeclaredLabels(b);
      DeclaredLabelsAlts(rest);
      UniqueKnown(b, ctx);
      UniqueKnownAlts(rest, ctx);
  }

  // ---- the body without its dead joins ----

  /** Dead joins replaced by the unit their declaration evaluates to. */
  function Prune(e: Expr, live: set<string>): Expr {
    match e
    case Lit(_) => e
    case Var(_) => e
    case Param(_) => e
    case Prim(op, es) => Prim(op, PruneAll(es, live))
    case If(c, t, f) => If(Prune(c, live), Prune(t, live), Prune(f, live))
    case Let(x, v, b) =>
      Let(x, if v.Jp? && v.target !in live then UnitExpr else Prune(v, live), Prune(b, live))
    case Match(s, alts) => Match(Prune(s, live), PruneAlts(alts, live))
    case Call(f, es) => Call(f, PruneAll(es, live))
    case Jp(l, ps, c) => Jp(l, ps, Prune(c, live))
    case Jmp(l, es) => Jmp(l, PruneAll(es, live))
    case Unreachable => e
  }

  function PruneAll(es: Exprs, live: set<string>): (r: Exprs)
    ensures Len(r) == Len(es)
  {
    match es
    case Nil => Nil
    case Cons(e, tail) => Cons(Prune(e, live), PruneAll(tail, live))
  }

  function PruneAlts(alts: Alts, live: set<string>): Alts {
    match alts
    case NoMore => NoMore
    case Default(b) => Default(Prune(b, live))
    case Alt(c, bs, b, rest) => Alt(c, bs, Prune(b, live), PruneAlts(rest, live))
  }

  lemma UnitNames()
    ensures Free(UnitExpr) == {} && Bound(UnitExpr) == {} && Unique(UnitExpr)
    ensures DeclsOf(UnitExpr) == map[] && JumpsOf(UnitExpr) == {}
  {}

  lemma {:induction false} PruneNames(e: Expr, live: set<string>)
    requires Unique(e) && JumpsOf(e) <= live
    ensures Unique(Prune(e, live)) && Bound(Prune(e, live)) <= Bound(e) && Free(Prune(e, live)) <= Free(e)
    decreases e, 1
  {
    match e
    case Lit(_) =>
    case Var(_) =>
    case Param(_) =>
    case Unreachable =>
    case Prim(_, es) => PruneNamesAll(es, live);
    case If(c, t, f) =>
      PruneNames(c, live);
      PruneNames(t, live);
      PruneNames(f, live);
    case Let(_, _, _) => PruneNamesLet(e, live);
    case Match(s, alts) =>
      PruneNames(s, live);
      PruneNamesAlts(alts, live);
    case Call(_, es) => PruneNamesAll(es, live);
    case Jp(_, _, c) => PruneNames(c, live);
    case Jmp(_, es) => PruneNamesAll(es, live);
  }

  lemma {:induction false} PruneNamesLet(e: Expr, live: set<string>)
    requires e.Let? && Unique(e) && JumpsOf(e) <= live
    ensures Unique(Prune(e, live)) && Bound(Prune(e, live)) <= Bound(e) && Free(Prune(e, live)) <= Free(e)
    decreases e, 0
  {
    UnitNames();
    FreeLabels(e.body);
    PruneShape(e.value, live);
    PruneNames(e.value, live);
    PruneNames(e.body, live);
  }

  lemma {:induction false} PruneNamesAll(es: Exprs, live: set<string>)
    requires UniqueAll(es) && JumpsOfAll(es) <= live
    ensures UniqueAll(PruneAll(es, live))
    ensures BoundAll(PruneAll(es, live)) <= BoundAll(es) && FreeAll(PruneAll(es, live)) <= FreeAll(es)
  {
    match es
    case Nil =>
    case Cons(e, tail) =>
      PruneNames(e, live);
      PruneNamesAll(tail, live);
  }

  lemma {:induction false} PruneNamesAlts(alts: Alts, live: set<string>)
    requires UniqueAlts(alts) && JumpsOfAlts(alts) <= live
    ensures UniqueAlts(PruneAlts(alts, live))
    ensures BoundAlts(PruneAlts(alts, live)) <= BoundAlts(alts) && FreeAlts(PruneAlts(alts, live)) <= FreeAlts(alts)
  {
    match alts
    case NoMore =>
    case Default(b) => PruneNames(b, live);
    case Alt(_, _, b, rest) =>
      PruneNames(b, live);
      PruneNamesAlts(rest, live);
  }

  /** What pruning does to the collected declarations. */
  ghost predicate PrunedDecls(decls: map<string, Decl>, decls': map<string, Decl>, live: set<string>, strict: bool) {
    && (forall l :: l in decls' <==> l in decls && l in live)
    && (forall l :: l in decls' ==>
          decls'[l] == Decl(decls[l].params, Prune(decls[l].cont, live)) && Tame(decls[l].cont, live, strict))
  }

  lemma {:induction false} PruneContext(e: Expr, live: set<string>, strict: bool)
    requires Tame(e, live, strict)
    ensures PrunedDecls(DeclsOf(e), DeclsOf(Prune(e, live)), live, strict)
    ensures JumpsOf(Prune(e, live)) == JumpsOf(e)
    decreases e, 1
  {
    match e
    case Lit(_) =>
    case Var(_) =>
    case Param(_) =>
    case Unreachable =>
    case Prim(_, es) => PruneContextAll(es, live, strict);
    case If(_, _, _) => PruneContextIf(e, live, strict);
    case Let(_, _, _) => PruneContextLet(e, live, strict);
    case Match(s, alts) =>
      PruneContext(s, live, strict);
      PruneContextAlts(alts, live, strict);
    case Call(_, es) => PruneContextAll(es, live, strict);
    case Jp(_, _, c) => PruneContext(c, live, strict);
    case Jmp(_, es) => PruneContextAll(es, live, strict);
  }

  lemma {:induction false} PruneContextIf(e: Expr, live: set<string>, strict: bool)
    requires e.If? && Tame(e, live, strict)
    ensures PrunedDecls(DeclsOf(e), DeclsOf(Prune(e, live)), live, strict)
    ensures JumpsOf(Prune(e, live)) == JumpsOf(e)
    decreases e, 0
  {
    PruneContext(e.cond, live, strict);
    PruneContext(e.yes, live, strict);
    PruneContext(e.no, live, strict);
  }

  lemma {:induction false} PruneContextLet(e: Expr, live: set<string>, strict: bool)
    requires e.Let? && Tame(e, live, strict)
    ensures PrunedDecls(DeclsOf(e), DeclsOf(Prune(e, live)), live, strict)
    ensures JumpsOf(Prune(e, live)) == JumpsOf(e)
    decreases e, 0
  {
    var v := e.value;
    PruneContext(e.body, live, strict);
    if v.Jp? && v.target !in live {
      UnitNames();
      QuietJoinFree(v.cont);
      NoJumps(v.cont);
    } else {
      PruneContext(v, live, strict);
    }
  }

  lemma {:induction false} PruneContextAll(es: Exprs, live: set<string>, strict: bool)
    requires TameAll(es, live, strict)
    ensures PrunedDecls(DeclsOfAll(es), DeclsOfAll(PruneAll(es, live)), live, strict)
    ensures JumpsOfAll(PruneAll(es, live)) == JumpsOfAll(es)
  {
    match es
    case Nil =>
    case Cons(e, tail) =>
      PruneContext(e, live, strict);
      PruneContextAll(tail, live, strict);
  }

  lemma {:induction false} PruneContextAlts(alts: Alts, live: set<string>, strict: bool)
    requires TameAlts(alts, live, strict)
    ensures PrunedDecls(DeclsOfAlts(alts), DeclsOfAlts(PruneAlts(alts, live)), live, strict)
    ensures JumpsOfAlts(PruneAlts(alts, live)) == JumpsOfAlts(alts)
  {
    match alts
    case NoMore =>
    case Default(b) => PruneContext(b, live, strict);
    case Alt(_, _, b, rest) =>
      PruneContext(b, live, strict);
      PruneContextAlts(rest, live, strict);
  }

  // ---- pruning preserves evaluation ----

  /** The joins in scope without the dead ones. */
  ghost predicate Pruned(js: Joins, js': Joins, live: set<string>, strict: bool) {
    match js
    case NoJoin => js' == NoJoin
    case Join(l, ps, c, env, outer) =>
      if l in live then
        && js'.Join? && js'.target == l && js'.params == ps && js'.env == env && js'.cont == Prune(c, live)
        && Tame(c, live, strict) && JumpsOf(c) <= live && Pruned(outer, js'.outer, live, strict)
      else Pruned(outer, js', live, strict)
  }

  lemma {:induction false} FindPruned(l: string, js: Joins, js': Joins, live: set<string>, strict: bool)
    requires Pruned(js, js', live, strict) && l in live
    ensures Pruned(Find(l, js), Find(l, js'), live, strict)
    decreases js
  {
    if js.Join? && js.target != l {
      FindPruned(l, js.outer, if js.target in live then js'.outer else js', live, strict);
    }
  }

  ghost predicate PrunedMachine(m1: Machine, m2: Machine, strict: bool) {
    && m1.bounded == m2.bounded && m1.jumps == m2.jumps && m1.defs.Keys == m2.defs.Keys
    && (forall f :: f in m1.defs ==>
          && m1.defs[f].params == m2.defs[f].params && TameBody(m1.defs[f].body, strict)
          && m2.defs[f].body == Prune(m1.defs[f].body, JumpsOf(m1.defs[f].body)))
  }

  lemma {:induction false} PruneEval(
    m1: Machine, m2: Machine, calls: nat, jumps: nat, actuals: seq<Value>,
    e: Expr, env: Env, js: Joins, js': Joins, live: set<string>, strict: bool)
    requires PrunedMachine(m1, m2, strict) && Pruned(js, js', live, strict)
    requires Tame(e, live, strict) && JumpsOf(e) <= live
    ensures Eval(m1, calls, jumps, actuals, e, env, js) == Eval(m2, calls, jumps, actuals, Prune(e, live), env, js')
    decreases calls, jumps, e, 1
  {
    match e
    case Lit(_) =>
    case Var(_) =>
    case Param(_) =>
    case Unreachable =>
    case Jp(_, _, _) =>
    case Prim(_, es) => PruneEvalAll(m1, m2, calls, jumps, actuals, es, env, js, js', live, strict);
    case If(_, _, _) => PruneIf(m1, m2, calls, jumps, actuals, e, env, js, js', live, strict);
    case Let(_, _, _) => PruneLet(m1, m2, calls, jumps, actuals, e, env, js, js', live, strict);
    case Match(s, alts) =>
      PruneEval(m1, m2, calls, jumps, actuals, s, env, js, js', live, strict);
      var o := Eval(m1, calls, jumps, actuals, s, env, js);
      if o.Ok? {
        PruneEvalAlts(m1, m2, calls, jumps, actuals, alts, o.value, env, js, js', live, strict);
      }
    case Call(_, _) => PruneCall(m1, m2, calls, jumps, actuals, e, env, js, js', live, strict);
    case Jmp(_, _) => PruneJump(m1, m2, calls, jumps, actuals, e, env, js, js', live, strict);
  }

  lemma {:induction false} PruneIf(
    m1: Machine, m2: Machine, calls: nat, jumps: nat, actuals: seq<Value>,
    e: Expr, env: Env, js: Joins, js': Joins, live: set<string>, strict: bool)
    requires e.If? && PrunedMachine(m1, m2, strict) && Pruned(js, js', live, strict)
    requires Tame(e, live, strict) && JumpsOf(e) <= live
    ensures Eval(m1, calls, jumps, actuals, e, env, js) == Eval(m2, calls, jumps, actuals, Prune(e, live), env, js')
    decreases calls, jumps, e, 0
  {
    PruneEval(m1, m2, calls, jumps, actuals, e.cond, env, js, js', live, strict);
    PruneEval(m1, m2, calls, jumps, actuals, e.yes, env, js, js', live, strict);
    PruneEval(m1, m2, calls, jumps, actuals, e.no, env, js, js', live, strict);
  }

  lemma {:induction false} PruneCall(
    m1: Machine, m2: Machine, calls: nat, jumps: nat, actuals: seq<Value>,
    e: Expr, env: Env, js: Joins, js': Joins, live: set<string>, strict: bool)
    requires e.Call? && PrunedMachine(m1, m2, strict) && Pruned(js, js', live, strict)
    requires Tame(e, live, strict) && JumpsOf(e) <= live
    ensures Eval(m1, calls, jumps, actuals, e, env, js) == Eval(m2, calls, jumps, actuals, Prune(e, live), env, js')
    decreases calls, jumps, e, 0
  {
    PruneEvalAll(m1, m2, calls, jumps, actuals, e.args, env, js, js', live, strict);
    var os := EvalAll(m1, calls, jumps, actuals, e.args, env, js);
    if os.Oks? && calls > 0 {
      PruneRun(m1, m2, calls - 1, e.callee, os.values, strict);
    }
  }

  lemma {:induction false} PruneLet(
    m1: Machine, m2: Machine, calls: nat, jumps: nat, actuals: seq<Value>,
    e: Expr, env: Env, js: Joins, js': Joins, live: set<string>, strict: bool)
    requires e.Let? && PrunedMachine(m1, m2, strict) && Pruned(js, js', live, strict)
    requires Tame(e, live, strict) && JumpsOf(e) <= live
    ensures Eval(m1, calls, jumps, actuals, e, env, js) == Eval(m2, calls, jumps, actuals, Prune(e, live), env, js')
    decreases calls, jumps, e, 0
  {
    var Let(x, v, b) := e;
    PruneShape(v, live);
    if v.Jp? {
      var outer := PrunedScope(e, env, js, js', live, strict);
      UnitEval(m2, calls, jumps, actuals, env, js');
      PruneEval(m1, m2, calls, jumps, actuals, b, env[x := UnitValue], Visible(v, env, js), outer, live, strict);
    } else {
      PruneEval(m1, m2, calls, jumps, actuals, v, env, js, js', live, strict);
      var o := Eval(m1, calls, jumps, actuals, v, env, js);
      if o.Ok? {
        PruneEval(m1, m2, calls, jumps, actuals, b, env[x := o.value], js, js', live, strict);
      }
    }
  }

  lemma PrunedScope(e: Expr, env: Env, js: Joins, js': Joins, live: set<string>, strict: bool) returns (outer: Joins)
    requires e.Let? && e.value.Jp? && Tame(e, live, strict) && JumpsOf(e) <= live && Pruned(js, js', live, strict)
    ensures Pruned(Visible(e.value, env, js), outer, live, strict)
    ensures outer == Visible(Prune(e, live).value, env, js')
  {
    var v := e.value;
    outer := if v.target in live then Visible(Prune(v, live), env, js') else js';
  }

  lemma PruneShape(v: Expr, live: set<string>)
    ensures Prune(v, live).Jp? <==> v.Jp?
  {}

  lemma UnitEval(m: Machine, calls: nat, jumps: nat, actuals: seq<Value>, env: Env, js: Joins)
    ensures Eval(m, calls, jumps, actuals, UnitExpr, env, js) == Ok(UnitValue)
  {
    assert EvalAll(m, calls, jumps, actuals, Nil, env, js) == Oks([]);
  }

  lemma {:induction false} PruneJump(
    m1: Machine, m2: Machine, calls: nat, jumps: nat, actuals: seq<Value>,
    e: Expr, env: Env, js: Joins, js': Joins, live: set<string>, strict: bool)
    requires e.Jmp? && PrunedMachine(m1, m2, strict) && Pruned(js, js', live, strict)
    requires Tame(e, live, strict) && JumpsOf(e) <= live
    ensures Eval(m1, calls, jumps, actuals, e, env, js) == Eval(m2, calls, jumps, actuals, Prune(e, live), env, js')
    decreases calls, jumps, e, 0
  {
    PruneEvalAll(m1, m2, calls, jumps, actuals, e.args, env, js, js', live, strict);
    var os := EvalAll(m1, calls, jumps, actuals, e.args, env, js);
    var s, s' := Find(e.target, js), Find(e.target, js');
    FindPruned(e.target, js, js', live, strict);
    if os.Oks? && s.Join? && |s.params| == |os.values| && jumps > 0 {
      PruneEval(m1, m2, calls, jumps - 1, actuals, s.cont, Bind(s.params, os.values, s.env), s, s', live, strict);
    }
  }

  lemma {:induction false} PruneEvalAll(
    m1: Machine, m2: Machine, calls: nat, jumps: nat, actuals: seq<Value>,
    es: Exprs, env: Env, js: Joins, js': Joins, live: set<string>, strict: bool)
    requires PrunedMachine(m1, m2, strict) && Pruned(js, js', live, strict)
    requires TameAll(es, live, strict) && JumpsOfAll(es) <= live
    ensures EvalAll(m1, calls, jumps, actuals, es, env, js)
        == EvalAll(m2, calls, jumps, actuals, PruneAll(es, live), env, js')
    decreases calls, jumps, es
  {
    match es
    case Nil =>
    case Cons(e, tail) =>
      PruneEval(m1, m2, calls, jumps, actuals, e, env, js, js', live, strict);
      PruneEvalAll(m1, m2, calls, jumps, actuals, tail, env, js, js', live, strict);
  }

  lemma {:induction false} PruneEvalAlts(
    m1: Machine, m2: Machine, calls: nat, jumps: nat, actuals: seq<Value>,
    alts: Alts, v: Value, env: Env, js: Joins, js': Joins, live: set<string>, strict: bool)
    requires PrunedMachine(m1, m2, strict) && Pruned(js, js', live, strict)
    requires TameAlts(alts, live, strict) && JumpsOfAlts(alts) <= live
    ensures EvalAlts(m1, calls, jumps, actuals, alts, v, env, js)
         == EvalAlts(m2, calls, jumps, actuals, PruneAlts(alts, live), v, env, js')
    decreases calls, jumps, alts
  {
    match alts
    case NoMore =>
    case Default(b) => PruneEval(m1, m2, calls, jumps, actuals, b, env, js, js', live, strict);
    case Alt(c, bs, b, rest) =>
      var fs := Fields(c, |bs|, v);
      if fs != [] {
        PruneEval(m1, m2, calls, jumps, actuals, b, Bind(bs, fs[0], env), js, js', live, strict);
      } else {
        PruneEvalAlts(m1, m2, calls, jumps, actuals, rest, v, env, js, js', live, strict);
      }
  }

  lemma {:induction false} PruneRun(m1: Machine, m2: Machine, calls: nat, f: string, vs: seq<Value>, strict: bool)
    requires PrunedMachine(m1, m2, strict)
    ensures Run(m1, calls, f, vs) == Run(m2, calls, f, vs)
    decreases calls, m1.jumps + 1
  {
    if f in m1.defs && |m1.defs[f].params| == |vs| {
      var d := m1.defs[f];
      PruneEval(m1, m2, calls, m1.jumps, vs, d.body, Bind(d.params, vs, map[]), NoJoin, NoJoin, JumpsOf(d.body),
                strict);
    }
  }

  // ---- harmless blocks succeed ----

  /** A quiet term yields a value or does not compile. */
  lemma {:induction false} QuietEval(m: Machine, calls: nat, jumps: nat, actuals: seq<Value>, e: Expr, env: Env)
    requires Quiet(e)
    ensures var o := Eval(m, calls, jumps, actuals, e, env, NoJoin); o.Ok? || o.Stuck?
    decreases e
  {
    match e
    case Lit(_) =>
    case Var(_) =>
    case Param(_) =>
    case Prim(op, es) =>
      QuietEvalAll(m, calls, jumps, actuals, es, env);
      var os := EvalAll(m, calls, jumps, actuals, es, env, NoJoin);
      if os.Oks? {
        QuietApply(op, os.values, m.bounded);
      }
    case If(c, t, f) =>
      QuietEval(m, calls, jumps, actuals, c, env);
      QuietEval(m, calls, jumps, actuals, t, env);
      QuietEval(m, calls, jumps, actuals, f, env);
    case Let(x, v, b) =>
      QuietEval(m, calls, jumps, actuals, v, env);
      var o := Eval(m, calls, jumps, actuals, v, env, NoJoin);
      if o.Ok? {
        QuietJoinFree(v);
        QuietEval(m, calls, jumps, actuals, b, env[x := o.value]);
      }
    case Match(s, alts) =>
      QuietEval(m, calls, jumps, actuals, s, env);
      var o := Eval(m, calls, jumps, actuals, s, env, NoJoin);
      if o.Ok? {
        QuietEvalAlts(m, calls, jumps, actuals, alts, o.value, env);
      }
  }

  lemma QuietApply(op: Op, vs: seq<Value>, bounded: bool)
    requires !CheckedOp(op)
    ensures var o := Apply(op, vs, bounded); o.Ok? || o.Stuck?
  {}

  lemma {:induction false} QuietEvalAll(m: Machine, calls: nat, jumps: nat, actuals: seq<Value>, es: Exprs, env: Env)
    requires QuietAll(es)
    ensures var os := EvalAll(m, calls, jumps, actuals, es, env, NoJoin); os.Fails? ==> os.outcome.Stuck?
    decreases es
  {
    match es
    case Nil =>
    case Cons(e, tail) =>
      QuietEval(m, calls, jumps, actuals, e, env);
      QuietEvalAll(m, calls, jumps, actuals, tail, env);
  }

  lemma {:induction false} QuietEvalAlts(m: Machine, calls: nat, jumps: nat, actuals: seq<Value>, alts: Alts, v: Value,
                                         env: Env)
    requires QuietAlts(alts)
    ensures var o := EvalAlts(m, calls, jumps, actuals, alts, v, env, NoJoin); o.Ok? || o.Stuck?
    decreases alts
  {
    match alts
    case NoMore =>
    case Default(b) => QuietEval(m, calls, jumps, actuals, b, env);
    case Alt(c, bs, b, rest) =>
      var fs := Fields(c, |bs|, v);
      if fs != [] {
        QuietEval(m, calls, jumps, actuals, b, Bind(bs, fs[0], env));
      } else {
        QuietEvalAlts(m, calls, jumps, actuals, rest, v, env);
      }
  }

  ghost predicate VarsIn(free: set<Name>, vars: set<string>) {
    forall x :: V(x) in free ==> x in vars
  }

  /** An inert term yields a value exactly when it is in scope; otherwise it does not compile. */
  lemma {:induction false} InertEval(m: Machine, calls: nat, jumps: nat, actuals: seq<Value>, e: Expr, env: Env)
    requires Inert(e)
    ensures var o := Eval(m, calls, jumps, actuals, e, env, NoJoin);
      (o.Ok? || o.Stuck?) && (o.Ok? <==> VarsIn(Free(e), env.Keys))
    decreases e
  {
    match e
    case Lit(_) =>
    case Var(x) => assert V(x) in Free(e);
    case Prim(op, es) => InertEvalAll(m, calls, jumps, actuals, es, env);
    case Let(x, v, b) =>
      assert !v.Jp?;
      InertEval(m, calls, jumps, actuals, v, env);
      var o := Eval(m, calls, jumps, actuals, v, env, NoJoin);
      if o.Ok? {
        var inner := env[x := o.value];
        InertEval(m, calls, jumps, actuals, b, inner);
        assert VarsIn(Free(b), inner.Keys) <==> VarsIn(Free(b) - {V(x)}, env.Keys);
      }
  }

  lemma {:induction false} InertEvalAll(m: Machine, calls: nat, jumps: nat, actuals: seq<Value>, es: Exprs, env: Env)
    requires InertAll(es)
    ensures var os := EvalAll(m, calls, jumps, actuals, es, env, NoJoin);
      (os.Fails? ==> os.outcome.Stuck?) && (os.Oks? <==> VarsIn(FreeAll(es), env.Keys))
    decreases es
  {
    match es
    case Nil =>
    case Cons(e, tail) =>
      InertEval(m, calls, jumps, actuals, e, env);
      InertEvalAll(m, calls, jumps, actuals, tail, env);
  }

  // ---- padding: the same code with harmless blocks where units were ----

  /** `e2` is `e1` with harmless blocks, closed in scope, in place of ignored units. */
  ghost predicate Padded(e1: Expr, e2: Expr, vars: set<string>, strict: bool) {
    match e1
    case Lit(_) => e2 == e1
    case Var(_) => e2 == e1
    case Param(_) => e2 == e1
    case Prim(op, es) => e2.Prim? && e2.op == op && PaddedAll(es, e2.args, vars, strict)
    case If(c, t, f) =>
      e2.If? && Padded(c, e2.cond, vars, strict) && Padded(t, e2.yes, vars, strict) && Padded(f, e2.no, vars, strict)
    case Let(x, v, b) =>
      && e2.Let? && e2.name == x
      && (|| (Padded(v, e2.value, vars, strict) && Padded(b, e2.body, vars + {x}, strict))
          || (v == UnitExpr && Block(e2.value, vars, strict) && V(x) !in Free(b) && Padded(b, e2.body, vars, strict)))
    case Match(s, alts) => e2.Match? && Padded(s, e2.scrut, vars, strict) && PaddedAlts(alts, e2.alts, vars, strict)
    case Call(f, es) => e2.Call? && e2.callee == f && PaddedAll(es, e2.args, vars, strict)
    case Jp(_, _, _) => false
    case Jmp(_, _) => false
    case Unreachable => e2 == e1
  }

  ghost predicate Block(c: Expr, vars: set<string>, strict: bool) {
    Quiet(c) && (strict ==> Inert(c)) && VarsIn(Free(c), vars)
  }

  ghost predicate PaddedAll(es1: Exprs, es2: Exprs, vars: set<string>, strict: bool) {
    match es1
    case Nil => es2 == Nil
    case Cons(e, tail) => es2.Cons? && Padded(e, es2.head, vars, strict) && PaddedAll(tail, es2.tail, vars, strict)
  }

  ghost predicate PaddedAlts(alts1: Alts, alts2: Alts, vars: set<string>, strict: bool) {
    match alts1
    case NoMore => alts2 == NoMore
    case Default(b) => alts2.Default? && Padded(b, alts2.otherwise, vars, strict)
    case Alt(c, bs, b, rest) =>
      && alts2.Alt? && alts2.ctor == c && alts2.binders == bs
      && Padded(b, alts2.body, vars + Names(bs), strict) && PaddedAlts(rest, alts2.rest, vars, strict)
  }

  lemma {:induction false} PaddedMore(e1: Expr, e2: Expr, vars: set<string>, more: set<string>, strict: bool)
    requires Padded(e1, e2, vars, strict) && vars <= more
    ensures Padded(e1, e2, more, strict)
    decreases e1
  {
    match e1
    case Lit(_) =>
    case Var(_) =>
    case Param(_) =>
    case Unreachable =>
    case Prim(_, es) => PaddedMoreAll(es, e2.args, vars, more, strict);
    case If(c, t, f) =>
      PaddedMore(c, e2.cond, vars, more, strict);
      PaddedMore(t, e2.yes, vars, more, strict);
      PaddedMore(f, e2.no, vars, more, strict);
    case Let(x, v, b) =>
      if Padded(v, e2.value, vars, strict) && Padded(b, e2.body, vars + {x}, strict) {
        PaddedMore(v, e2.value, vars, more, strict);
        PaddedMore(b, e2.body, vars + {x}, more + {x}, strict);
      } else {
        PaddedMore(b, e2.body, vars, more, strict);
      }
    case Match(s, alts) =>
      PaddedMore(s, e2.scrut, vars, more, strict);
      PaddedMoreAlts(alts, e2.alts, vars, more, strict);
    case Call(_, es) => PaddedMoreAll(es, e2.args, vars, more, strict);
  }

  lemma {:induction false} PaddedMoreAll(es1: Exprs, es2: Exprs, vars: set<string>, more: set<string>, strict: bool)
    requires PaddedAll(es1, es2, vars, strict) && vars <= more
    ensures PaddedAll(es1, es2, more, strict)
    decreases es1
  {
    match es1
    case Nil =>
    case Cons(e, tail) =>
      PaddedMore(e, es2.head, vars, more, strict);
      PaddedMoreAll(tail, es2.tail, vars, more, strict);
  }

  lemma {:induction false} PaddedMoreAlts(alts1: Alts, alts2: Alts, vars: set<string>, more: set<string>, strict: bool)
    requires PaddedAlts(alts1, alts2, vars, strict) && vars <= more
    ensures PaddedAlts(alts1, alts2, more, strict)
    decreases alts1
  {
    match alts1
    case NoMore =>
    case Default(b) => PaddedMore(b, alts2.otherwise, vars, more, strict);
    case Alt(_, bs, b, rest) =>
      PaddedMore(b, alts2.body, vars + Names(bs), more + Names(bs), strict);
      PaddedMoreAlts(rest, alts2.rest, vars, more, strict);
  }

  /** Padding mentions nothing out of scope. */
  lemma {:induction false} PaddedFree(e1: Expr, e2: Expr, vars: set<string>, strict: bool)
    requires Padded(e1, e2, vars, strict) && VarsIn(Free(e1), vars)
    ensures VarsIn(Free(e2), vars) && JoinFree(e2)
    decreases e1
  {
    match e1
    case Lit(_) =>
    case Var(_) =>
    case Param(_) =>
    case Unreachable =>
    case Prim(_, es) => PaddedFreeAll(es, e2.args, vars, strict);
    case If(c, t, f) =>
      PaddedFree(c, e2.cond, vars, strict);
      PaddedFree(t, e2.yes, vars, strict);
      PaddedFree(f, e2.no, vars, strict);
    case Let(x, v, b) =>
      if Padded(v, e2.value, vars, strict) && Padded(b, e2.body, vars + {x}, strict) {
        assert !v.Jp?;
        PaddedFree(v, e2.value, vars, strict);
        PaddedFree(b, e2.body, vars + {x}, strict);
      } else {
        UnitNames();
        QuietJoinFree(e2.value);
        PaddedFree(b, e2.body, vars, strict);
      }
    case Match(s, alts) =>
      PaddedFree(s, e2.scrut, vars, strict);
      PaddedFreeAlts(alts, e2.alts, vars, strict);
    case Call(_, es) => PaddedFreeAll(es, e2.args, vars, strict);
  }

  lemma {:induction false} PaddedFreeAll(es1: Exprs, es2: Exprs, vars: set<string>, strict: bool)
    requires PaddedAll(es1, es2, vars, strict) && VarsIn(FreeAll(es1), vars)
    ensures VarsIn(FreeAll(es2), vars) && JoinFreeAll(es2)
    decreases es1
  {
    match es1
    case Nil =>
    case Cons(e, tail) =>
      PaddedFree(e, es2.head, vars, strict);
      PaddedFreeAll(tail, es2.tail, vars, strict);
  }

  lemma {:induction false} PaddedFreeAlts(alts1: Alts, alts2: Alts, vars: set<string>, strict: bool)
    requires PaddedAlts(alts1, alts2, vars, strict) && VarsIn(FreeAlts(alts1), vars)
    ensures VarsIn(FreeAlts(alts2), vars) && JoinFreeAlts(alts2)
    decreases alts1
  {
    match alts1
    case NoMore =>
    case Default(b) => PaddedFree(b, alts2.otherwise, vars, strict);
    case Alt(_, bs, b, rest) =>
      PaddedFree(b, alts2.body, vars + Names(bs), strict);
      PaddedFreeAlts(rest, alts2.rest, vars, strict);
  }

  // ---- padding preserves evaluation ----

  /** Equal, or code that does not compile; with inert blocks only, equal. */
  predicate Same(strict: bool, o1: Outcome, o2: Outcome) {
    o2 == o1 || (!strict && o2.Stuck?)
  }

  predicate SameAll(strict: bool, os1: Outcomes, os2: Outcomes) {
    os2 == os1 || (!strict && os2 == Fails(Stuck))
  }

  ghost predicate PaddedMachine(m1: Machine, m2: Machine, strict: bool) {
    && m1.bounded == m2.bounded && m1.defs.Keys == m2.defs.Keys
    && (forall f :: f in m1.defs ==>
          && m1.defs[f].params == m2.defs[f].params
          && Padded(m1.defs[f].body, m2.defs[f].body, Names(m1.defs[f].params), strict))
  }

  lemma {:induction false} PaddedEval(
    m1: Machine, m2: Machine, calls: nat, jumps: nat, jumps': nat, actuals: seq<Value>,
    e1: Expr, e2: Expr, env1: Env, env2: Env, vars: set<string>, strict: bool)
    requires PaddedMachine(m1, m2, strict) && Padded(e1, e2, vars, strict)
    requires AgreeOn(Free(e1), env1, env2) && vars <= env2.Keys
    ensures Same(strict, Eval(m1, calls, jumps, actuals, e1, env1, NoJoin),
                 Eval(m2, calls, jumps', actuals, e2, env2, NoJoin))
    decreases calls, e1, 1
  {
    match e1
    case Lit(_) =>
    case Var(_) =>
    case Param(_) =>
    case Unreachable =>
    case Prim(_, es) => PaddedEvalAll(m1, m2, calls, jumps, jumps', actuals, es, e2.args, env1, env2, vars, strict);
    case If(_, _, _) => PaddedIf(m1, m2, calls, jumps, jumps', actuals, e1, e2, env1, env2, vars, strict);
    case Let(_, _, _) => PaddedLet(m1, m2, calls, jumps, jumps', actuals, e1, e2, env1, env2, vars, strict);
    case Match(s, alts) =>
      PaddedEval(m1, m2, calls, jumps, jumps', actuals, s, e2.scrut, env1, env2, vars, strict);
      var o := Eval(m1, calls, jumps, actuals, s, env1, NoJoin);
      if o.Ok? {
        PaddedEvalAlts(m1, m2, calls, jumps, jumps', actuals, alts, e2.alts, o.value, env1, env2, vars, strict);
      }
    case Call(_, _) => PaddedCall(m1, m2, calls, jumps, jumps', actuals, e1, e2, env1, env2, vars, strict);
  }

  lemma {:induction false} PaddedIf(
    m1: Machine, m2: Machine, calls: nat, jumps: nat, jumps': nat, actuals: seq<Value>,
    e1: Expr, e2: Expr, env1: Env, env2: Env, vars: set<string>, strict: bool)
    requires e1.If? && PaddedMachine(m1, m2, strict) && Padded(e1, e2, vars, strict)
    requires AgreeOn(Free(e1), env1, env2) && vars <= env2.Keys
    ensures Same(strict, Eval(m1, calls, jumps, actuals, e1, env1, NoJoin),
                 Eval(m2, calls, jumps', actuals, e2, env2, NoJoin))
    decreases calls, e1, 0
  {
    PaddedEval(m1, m2, calls, jumps, jumps', actuals, e1.cond, e2.cond, env1, env2, vars, strict);
    PaddedEval(m1, m2, calls, jumps, jumps', actuals, e1.yes, e2.yes, env1, env2, vars, strict);
    PaddedEval(m1, m2, calls, jumps, jumps', actuals, e1.no, e2.no, env1, env2, vars, strict);
  }

  lemma {:induction false} PaddedCall(
    m1: Machine, m2: Machine, calls: nat, jumps: nat, jumps': nat, actuals: seq<Value>,
    e1: Expr, e2: Expr, env1: Env, env2: Env, vars: set<string>, strict: bool)
    requires e1.Call? && PaddedMachine(m1, m2, strict) && Padded(e1, e2, vars, strict)
    requires AgreeOn(Free(e1), env1, env2) && vars <= env2.Keys
    ensures Same(strict, Eval(m1, calls, jumps, actuals, e1, env1, NoJoin),
                 Eval(m2, calls, jumps', actuals, e2, env2, NoJoin))
    decreases calls, e1, 0
  {
    PaddedEvalAll(m1, m2, calls, jumps, jumps', actuals, e1.args, e2.args, env1, env2, vars, strict);
    var os := EvalAll(m1, calls, jumps, actuals, e1.args, env1, NoJoin);
    if os.Oks? && calls > 0 {
      PaddedRun(m1, m2, calls - 1, e1.callee, os.values, strict);
    }
  }

  lemma {:induction false} PaddedLet(
    m1: Machine, m2: Machine, calls: nat, jumps: nat, jumps': nat, actuals: seq<Value>,
    e1: Expr, e2: Expr, env1: Env, env2: Env, vars: set<string>, strict: bool)
    requires e1.Let? && PaddedMachine(m1, m2, strict) && Padded(e1, e2, vars, strict)
    requires AgreeOn(Free(e1), env1, env2) && vars <= env2.Keys
    ensures Same(strict, Eval(m1, calls, jumps, actuals, e1, env1, NoJoin),
                 Eval(m2, calls, jumps', actuals, e2, env2, NoJoin))
    decreases calls, e1, 0
  {
    var Let(x, v, b) := e1;
    var v', b' := e2.value, e2.body;
    if Padded(v, v', vars, strict) && Padded(b, b', vars + {x}, strict) {
      assert !v.Jp? && !v'.Jp?;
      PaddedEval(m1, m2, calls, jumps, jumps', actuals, v, v', env1, env2, vars, strict);
      var o := Eval(m1, calls, jumps, actuals, v, env1, NoJoin);
      if o.Ok? {
        PaddedEval(m1, m2, calls, jumps, jumps', actuals, b, b', env1[x := o.value], env2[x := o.value], vars + {x},
                   strict);
      }
    } else {
      UnitEval(m1, calls, jumps, actuals, env1, NoJoin);
      BlockEval(m2, calls, jumps', actuals, v', env2, vars, strict);
      var o := Eval(m2, calls, jumps', actuals, v', env2, NoJoin);
      if o.Ok? {
        PaddedEval(m1, m2, calls, jumps, jumps', actuals, b, b', env1[x := UnitValue], env2[x := o.value], vars,
                   strict);
      }
    }
  }

  lemma BlockEval(m: Machine, calls: nat, jumps: nat, actuals: seq<Value>, c: Expr, env: Env, vars: set<string>,
                  strict: bool)
    requires Block(c, vars, strict) && vars <= env.Keys
    ensures !c.Jp? && var o := Eval(m, calls, jumps, actuals, c, env, NoJoin); o.Ok? || (!strict && o.Stuck?)
  {
    QuietEval(m, calls, jumps, actuals, c, env);
    if strict {
      InertEval(m, calls, jumps, actuals, c, env);
    }
  }

  lemma {:induction false} PaddedEvalAll(
    m1: Machine, m2: Machine, calls: nat, jumps: nat, jumps': nat, actuals: seq<Value>,
    es1: Exprs, es2: Exprs, env1: Env, env2: Env, vars: set<string>, strict: bool)
    requires PaddedMachine(m1, m2, strict) && PaddedAll(es1, es2, vars, strict)
    requires AgreeOn(FreeAll(es1), env1, env2) && vars <= env2.Keys
    ensures SameAll(strict, EvalAll(m1, calls, jumps, actuals, es1, env1, NoJoin),
                    EvalAll(m2, calls, jumps', actuals, es2, env2, NoJoin))
    decreases calls, es1
  {
    match es1
    case Nil =>
    case Cons(e, tail) =>
      PaddedEval(m1, m2, calls, jumps, jumps', actuals, e, es2.head, env1, env2, vars, strict);
      PaddedEvalAll(m1, m2, calls, jumps, jumps', actuals, tail, es2.tail, env1, env2, vars, strict);
  }

  lemma {:induction false} PaddedEvalAlts(
    m1: Machine, m2: Machine, calls: nat, jumps: nat, jumps': nat, actuals: seq<Value>,
    alts1: Alts, alts2: Alts, v: Value, env1: Env, env2: Env, vars: set<string>, strict: bool)
    requires PaddedMachine(m1, m2, strict) && PaddedAlts(alts1, alts2, vars, strict)
    requires AgreeOn(FreeAlts(alts1), env1, env2) && vars <= env2.Keys
    ensures Same(strict, EvalAlts(m1, calls, jumps, actuals, alts1, v, env1, NoJoin),
                 EvalAlts(m2, calls, jumps', actuals, alts2, v, env2, NoJoin))
    decreases calls, alts1
  {
    match alts1
    case NoMore =>
    case Default(b) => PaddedEval(m1, m2, calls, jumps, jumps', actuals, b, alts2.otherwise, env1, env2, vars, strict);
    case Alt(c, bs, b, rest) =>
      var fs := Fields(c, |bs|, v);
      if fs != [] {
        BindAgree(Free(b), bs, fs[0], env1, env2);
        BindKeys(bs, fs[0], env2);
        PaddedEval(m1, m2, calls, jumps, jumps', actuals, b, alts2.body, Bind(bs, fs[0], env1), Bind(bs, fs[0], env2),
                   vars + Names(bs), strict);
      } else {
        PaddedEvalAlts(m1, m2, calls, jumps, jumps', actuals, rest, alts2.rest, v, env1, env2, vars, strict);
      }
  }

  lemma {:induction false} PaddedRun(m1: Machine, m2: Machine, calls: nat, f: string, vs: seq<Value>, strict: bool)
    requires PaddedMachine(m1, m2, strict)
    ensures Same(strict, Run(m1, calls, f, vs), Run(m2, calls, f, vs))
    decreases calls
  {
    if f in m1.defs && |m1.defs[f].params| == |vs| {
      var d := m1.defs[f];
      var env := Bind(d.params, vs, map[]);
      BindKeys(d.params, vs, map[]);
      PaddedEval(m1, m2, calls, m1.jumps, m2.jumps, vs, d.body, m2.defs[f].body, env, env, Names(d.params), strict);
    }
  }

  // ---- the expansion is the pruned expansion, padded ----

  ghost predicate PrunedContext(ctx: Context, ctx': Context, strict: bool) {
    ctx'.jumped == ctx.jumped && PrunedDecls(ctx.decls, ctx'.decls, ctx.jumped, strict)
  }

  /** Live joins in scope are recorded as they stand and closed in their scope. */
  ghost predicate InScope(js: Joins, ctx: Context) {
    js.Join? ==>
      && InScope(js.outer, ctx)
      && (js.target in ctx.jumped ==>
            && js.target in ctx.decls && ctx.decls[js.target] == Decl(js.params, js.cont)
            && Known(js.cont, ctx) && Unique(js.cont)
            && VarsIn(Free(js.cont), js.env.Keys + Names(js.params)))
  }

  lemma {:induction false} FindInScope(l: string, js: Joins, ctx: Context)
    requires InScope(js, ctx)
    ensures InScope(Find(l, js), ctx)
  {
    if js.Join? && js.target != l {
      FindInScope(l, js.outer, ctx);
    }
  }

  ghost predicate JoinsReady(js: Joins, js': Joins, ctx: Context, ctx': Context, strict: bool) {
    PrunedContext(ctx, ctx', strict) && Pruned(js, js', ctx.jumped, strict) && InScope(js, ctx)
  }

  /** A term of the original body where it is expanded; only the domain of `env` matters. */
  ghost predicate Going(e: Expr, ctx: Context, ctx': Context, k: nat, env: Env, js: Joins, js': Joins, strict: bool) {
    && JoinsReady(js, js', ctx, ctx', strict)
    && Expandable(e, ctx, k) && Known(e, ctx) && Tame(e, ctx.jumped, strict) && JumpsOf(e) <= ctx.jumped
    && VarsIn(Free(e), env.Keys) && Unique(e)
    && Static(Prune(e, ctx.jumped), env.Keys, ctx')
    && JoinExpansion.Ready(Free(Prune(e, ctx.jumped)), Bound(Prune(e, ctx.jumped)), env, js', ctx')
  }

  ghost predicate GoingAll(es: Exprs, ctx: Context, ctx': Context, k: nat, env: Env, js: Joins, js': Joins,
                           strict: bool)
  {
    && JoinsReady(js, js', ctx, ctx', strict)
    && ExpandableAll(es, ctx, k) && KnownAll(es, ctx) && TameAll(es, ctx.jumped, strict) && JumpsOfAll(es) <= ctx.jumped
    && VarsIn(FreeAll(es), env.Keys) && UniqueAll(es)
    && StaticAll(PruneAll(es, ctx.jumped), env.Keys, ctx')
    && JoinExpansion.Ready(FreeAll(PruneAll(es, ctx.jumped)), BoundAll(PruneAll(es, ctx.jumped)), env, js', ctx')
  }

  ghost predicate GoingAlts(alts: Alts, ctx: Context, ctx': Context, k: nat, env: Env, js: Joins, js': Joins,
                            strict: bool)
  {
    && JoinsReady(js, js', ctx, ctx', strict)
    && ExpandableAlts(alts, ctx, k) && KnownAlts(alts, ctx) && TameAlts(alts, ctx.jumped, strict)
    && JumpsOfAlts(alts) <= ctx.jumped
    && VarsIn(FreeAlts(alts), env.Keys) && UniqueAlts(alts)
    && StaticAlts(PruneAlts(alts, ctx.jumped), env.Keys, ctx')
    && JoinExpansion.Ready(FreeAlts(PruneAlts(alts, ctx.jumped)), BoundAlts(PruneAlts(alts, ctx.jumped)), env, js',
                           ctx')
  }

  /** Both expand, the pruned one is closed, and the other pads it. */
  ghost predicate Pads(e: Expr, ctx: Context, ctx': Context, k: nat, vars: set<string>, strict: bool) {
    var e' := Prune(e, ctx.jumped);
    && Expandable(e, ctx, k) && Expandable(e', ctx', k)
    && Padded(Inlined(e', ctx', k), Inlined(e, ctx, k), vars, strict)
    && VarsIn(Free(Inlined(e', ctx', k)), vars)
  }

  ghost predicate PadsAll(es: Exprs, ctx: Context, ctx': Context, k: nat, vars: set<string>, strict: bool) {
    var es' := PruneAll(es, ctx.jumped);
    && ExpandableAll(es, ctx, k) && ExpandableAll(es', ctx', k)
    && PaddedAll(InlinedAll(es', ctx', k), InlinedAll(es, ctx, k), vars, strict)
    && VarsIn(FreeAll(InlinedAll(es', ctx', k)), vars)
  }

  ghost predicate PadsAlts(alts: Alts, ctx: Context, ctx': Context, k: nat, vars: set<string>, strict: bool) {
    var alts' := PruneAlts(alts, ctx.jumped);
    && ExpandableAlts(alts, ctx, k) && ExpandableAlts(alts', ctx', k)
    && PaddedAlts(InlinedAlts(alts', ctx', k), InlinedAlts(alts, ctx, k), vars, strict)
    && VarsIn(FreeAlts(InlinedAlts(alts', ctx', k)), vars)
  }

  lemma {:induction false} ExpansionPads(
    e: Expr, ctx: Context, ctx': Context, k: nat, env: Env, js: Joins, js': Joins, strict: bool)
    requires Going(e, ctx, ctx', k, env, js, js', strict)
    ensures Pads(e, ctx, ctx', k, env.Keys, strict)
    decreases k, e, 1
  {
    match e
    case Lit(_) =>
    case Var(_) =>
    case Param(_) =>
    case Unreachable =>
    case Jp(_, _, _) => PadsJp(e, ctx, ctx', k, env.Keys, strict);
    case Prim(_, _) => PadsOperands(e, ctx, ctx', k, env, js, js', strict);
    case Call(_, _) => PadsOperands(e, ctx, ctx', k, env, js, js', strict);
    case If(_, _, _) => PadsIf(e, ctx, ctx', k, env, js, js', strict);
    case Let(_, v, _) =>
      if v.Jp? && v.target !in ctx.jumped {
        PadsDead(e, ctx, ctx', k, env, js, js', strict);
      } else {
        PadsLet(e, ctx, ctx', k, env, js, js', strict);
      }
    case Match(_, _) => PadsMatch(e, ctx, ctx', k, env, js, js', strict);
    case Jmp(_, _) => PadsJump(e, ctx, ctx', k, env, js, js', strict);
  }

  lemma PadsJp(e: Expr, ctx: Context, ctx': Context, k: nat, vars: set<string>, strict: bool)
    requires e.Jp? && e.target in ctx.jumped && ctx'.jumped == ctx.jumped
    ensures Pads(e, ctx, ctx', k, vars, strict)
  {
    UnitNames();
    assert Padded(UnitExpr, UnitExpr, vars, strict);
  }

  lemma {:induction false} PadsOperands(
    e: Expr, ctx: Context, ctx': Context, k: nat, env: Env, js: Joins, js': Joins, strict: bool)
    requires (e.Prim? || e.Call?) && Going(e, ctx, ctx', k, env, js, js', strict)
    ensures Pads(e, ctx, ctx', k, env.Keys, strict)
    decreases k, e, 0
  {
    GoingOperands(e, ctx, ctx', k, env, js, js', strict);
    ExpansionPadsAll(e.args, ctx, ctx', k, env, js, js', strict);
  }

  lemma GoingOperands(e: Expr, ctx: Context, ctx': Context, k: nat, env: Env, js: Joins, js': Joins, strict: bool)
    requires (e.Prim? || e.Call? || e.Jmp?) && Going(e, ctx, ctx', k, env, js, js', strict)
    ensures GoingAll(e.args, ctx, ctx', k, env, js, js', strict)
  {
    var e' := Prune(e, ctx.jumped);
    Narrow(Free(e'), Bound(e'), env, FreeAll(e'.args), BoundAll(e'.args), env, js', ctx');
  }

  lemma {:induction false} PadsIf(
    e: Expr, ctx: Context, ctx': Context, k: nat, env: Env, js: Joins, js': Joins, strict: bool)
    requires e.If? && Going(e, ctx, ctx', k, env, js, js', strict)
    ensures Pads(e, ctx, ctx', k, env.Keys, strict)
    decreases k, e, 0
  {
    GoingBranch(e, e.cond, ctx, ctx', k, env, js, js', strict);
    GoingBranch(e, e.yes, ctx, ctx', k, env, js, js', strict);
    GoingBranch(e, e.no, ctx, ctx', k, env, js, js', strict);
    ExpansionPads(e.cond, ctx, ctx', k, env, js, js', strict);
    ExpansionPads(e.yes, ctx, ctx', k, env, js, js', strict);
    ExpansionPads(e.no, ctx, ctx', k, env, js, js', strict);
    IfPads(e, ctx, ctx', k, env.Keys, strict);
  }

  lemma GoingBranch(
    e: Expr, c: Expr, ctx: Context, ctx': Context, k: nat, env: Env, js: Joins, js': Joins, strict: bool)
    requires e.If? && (c == e.cond || c == e.yes || c == e.no) && Going(e, ctx, ctx', k, env, js, js', strict)
    ensures Going(c, ctx, ctx', k, env, js, js', strict)
  {
    var e', c' := Prune(e, ctx.jumped), Prune(c, ctx.jumped);
    Narrow(Free(e'), Bound(e'), env, Free(c'), Bound(c'), env, js', ctx');
  }

  lemma IfPads(e: Expr, ctx: Context, ctx': Context, k: nat, vars: set<string>, strict: bool)
    requires e.If? && Pads(e.cond, ctx, ctx', k, vars, strict)
    requires Pads(e.yes, ctx, ctx', k, vars, strict) && Pads(e.no, ctx, ctx', k, vars, strict)
    ensures Pads(e, ctx, ctx', k, vars, strict)
  {}

  lemma {:induction false} PadsMatch(
    e: Expr, ctx: Context, ctx': Context, k: nat, env: Env, js: Joins, js': Joins, strict: bool)
    requires e.Match? && Going(e, ctx, ctx', k, env, js, js', strict)
    ensures Pads(e, ctx, ctx', k, env.Keys, strict)
    decreases k, e, 0
  {
    GoingMatch(e, ctx, ctx', k, env, js, js', strict);
    ExpansionPads(e.scrut, ctx, ctx', k, env, js, js', strict);
    ExpansionPadsAlts(e.alts, ctx, ctx', k, env, js, js', strict);
  }

  lemma GoingMatch(e: Expr, ctx: Context, ctx': Context, k: nat, env: Env, js: Joins, js': Joins, strict: bool)
    requires e.Match? && Going(e, ctx, ctx', k, env, js, js', strict)
    ensures Going(e.scrut, ctx, ctx', k, env, js, js', strict)
    ensures GoingAlts(e.alts, ctx, ctx', k, env, js, js', strict)
  {
    var e' := Prune(e, ctx.jumped);
    Narrow(Free(e'), Bound(e'), env, Free(e'.scrut), Bound(e'.scrut), env, js', ctx');
    Narrow(Free(e'), Bound(e'), env, FreeAlts(e'.alts), BoundAlts(e'.alts), env, js', ctx');
  }

  /** A dead join: its let body is expanded as if the let were not there. */
  lemma {:induction false} PadsDead(
    e: Expr, ctx: Context, ctx': Context, k: nat, env: Env, js: Joins, js': Joins, strict: bool)
    requires e.Let? && e.value.Jp? && e.value.target !in ctx.jumped
    requires Going(e, ctx, ctx', k, env, js, js', strict)
    ensures Pads(e, ctx, ctx', k, env.Keys, strict)
    decreases k, e, 0
  {
    GoingPast(e, ctx, ctx', k, env, js, js', strict);
    ExpansionPads(e.body, ctx, ctx', k, env, Visible(e.value, env, js), js', strict);
    DeadPads(e, ctx, ctx', k, env.Keys, strict);
  }

  lemma GoingPast(e: Expr, ctx: Context, ctx': Context, k: nat, env: Env, js: Joins, js': Joins, strict: bool)
    requires e.Let? && e.value.Jp? && e.value.target !in ctx.jumped
    requires Going(e, ctx, ctx', k, env, js, js', strict)
    ensures Going(e.body, ctx, ctx', k, env, Visible(e.value, env, js), js', strict) && e.name !in env
  {
    var e' := Prune(e, ctx.jumped);
    LetStatic(e', env.Keys, ctx');
    FreeLabels(e.body);
    PruneNames(e.body, ctx.jumped);
    Narrow(Free(e'), Bound(e'), env, Free(e'.body), Bound(e'.body), env, js', ctx');
  }

  lemma DeadPads(e: Expr, ctx: Context, ctx': Context, k: nat, vars: set<string>, strict: bool)
    requires e.Let? && e.value.Jp? && e.value.target !in ctx.jumped && ctx'.jumped == ctx.jumped
    requires Tame(e, ctx.jumped, strict) && VarsIn(Free(e), vars) && e.name !in vars
    requires Pads(e.body, ctx, ctx', k, vars, strict)
    ensures Pads(e, ctx, ctx', k, vars, strict)
  {
    var v := e.value;
    QuietJoinFree(v.cont);
    JoinFreeInlined(v.cont, ctx, k);
    UnitInlined(ctx', k);
    assert forall y :: V(y) in Free(v.cont) ==> V(y) in Free(v);
    assert Block(v.cont, vars, strict);
  }

  lemma UnitInlined(ctx: Context, k: nat)
    ensures Expandable(UnitExpr, ctx, k) && Inlined(UnitExpr, ctx, k) == UnitExpr
  {}

  lemma {:induction false} PadsLet(
    e: Expr, ctx: Context, ctx': Context, k: nat, env: Env, js: Joins, js': Joins, strict: bool)
    requires e.Let? && (e.value.Jp? ==> e.value.target in ctx.jumped)
    requires Going(e, ctx, ctx', k, env, js, js', strict)
    ensures Pads(e, ctx, ctx', k, env.Keys, strict)
    decreases k, e, 0
  {
    var Let(x, v, b) := e;
    var inner := env[x := UnitValue];
    GoingValue(e, ctx, ctx', k, env, js, js', strict);
    GoingBody(e, ctx, ctx', k, env, js, js', strict);
    ExpansionPads(v, ctx, ctx', k, env, js, js', strict);
    ExpansionPads(b, ctx, ctx', k, inner, Visible(v, env, js), Visible(Prune(v, ctx.jumped), env, js'), strict);
    assert inner.Keys == env.Keys + {x};
    InlinedIsNotJp(Prune(v, ctx.jumped), ctx', k);
    LetPads(e, ctx, ctx', k, env.Keys, strict);
  }

  lemma GoingValue(e: Expr, ctx: Context, ctx': Context, k: nat, env: Env, js: Joins, js': Joins, strict: bool)
    requires e.Let? && (e.value.Jp? ==> e.value.target in ctx.jumped)
    requires Going(e, ctx, ctx', k, env, js, js', strict)
    ensures Going(e.value, ctx, ctx', k, env, js, js', strict)
  {
    var e' := Prune(e, ctx.jumped);
    LetStatic(e', env.Keys, ctx');
    Narrow(Free(e'), Bound(e'), env, Free(e'.value), Bound(e'.value), env, js', ctx');
  }

  lemma GoingBody(e: Expr, ctx: Context, ctx': Context, k: nat, env: Env, js: Joins, js': Joins, strict: bool)
    requires e.Let? && (e.value.Jp? ==> e.value.target in ctx.jumped)
    requires Going(e, ctx, ctx', k, env, js, js', strict)
    ensures Going(e.body, ctx, ctx', k, env[e.name := UnitValue], Visible(e.value, env, js),
                  Visible(Prune(e.value, ctx.jumped), env, js'), strict)
  {
    var Let(x, v, b) := e;
    var e' := Prune(e, ctx.jumped);
    LetStatic(e', env.Keys, ctx');
    PruneShape(v, ctx.jumped);
    if v.Jp? {
      Declare(e', env, UnitValue, js', ctx');
      Announce(v, env, js, js', ctx, ctx', strict);
    } else {
      Narrow(Free(e'), Bound(e'), env, Free(e'.body), Bound(e'.body), env[x := UnitValue], js', ctx');
    }
  }

  /** A live declaration joins those in scope. */
  lemma Announce(v: Expr, env: Env, js: Joins, js': Joins, ctx: Context, ctx': Context, strict: bool)
    requires v.Jp? && v.target in ctx.jumped && JoinsReady(js, js', ctx, ctx', strict)
    requires Known(v, ctx) && Tame(v, ctx.jumped, strict) && JumpsOf(v) <= ctx.jumped
    requires VarsIn(Free(v), env.Keys) && Unique(v)
    ensures JoinsReady(Visible(v, env, js), Visible(Prune(v, ctx.jumped), env, js'), ctx, ctx', strict)
  {
    assert forall y :: V(y) in Free(v.cont) ==> V(y) in Free(v) || y in v.params;
  }

  lemma LetPads(e: Expr, ctx: Context, ctx': Context, k: nat, vars: set<string>, strict: bool)
    requires e.Let? && (e.value.Jp? ==> e.value.target in ctx.jumped)
    requires Pads(e.value, ctx, ctx', k, vars, strict) && Pads(e.body, ctx, ctx', k, vars + {e.name}, strict)
    ensures Pads(e, ctx, ctx', k, vars, strict)
  {}

  lemma {:induction false} PadsJump(
    e: Expr, ctx: Context, ctx': Context, k: nat, env: Env, js: Joins, js': Joins, strict: bool)
    requires e.Jmp? && Going(e, ctx, ctx', k, env, js, js', strict)
    ensures Pads(e, ctx, ctx', k, env.Keys, strict)
    decreases k, e, 0
  {
    var l, es := e.target, e.args;
    var e' := Prune(e, ctx.jumped);
    assert L(l) in Free(e');
    var s, s' := Find(l, js), Find(l, js');
    assert Entry(s', env, Bound(e'), ctx');
    FindPruned(l, js, js', ctx.jumped, strict);
    FindInScope(l, js, ctx);
    GoingOperands(e, ctx, ctx', k, env, js, js', strict);
    ExpansionPadsAll(es, ctx, ctx', k, env, js, js', strict);
    JumpGoing(l, ctx, ctx', k, env, s, s', Bound(e'), strict);
    var inner := Opened(s.params, s.env);
    ExpansionPads(s.cont, ctx, ctx', k - 1, inner, s, s', strict);
    var c', c := Inlined(Prune(s.cont, ctx.jumped), ctx', k - 1), Inlined(s.cont, ctx, k - 1);
    PaddedMore(c', c, inner.Keys, env.Keys + Names(s.params), strict);
    LetsPads(s.params, InlinedAll(e'.args, ctx', k), InlinedAll(es, ctx, k), c', c, env.Keys, strict);
  }

  /** An environment with the parameters, whatever their values. */
  ghost function Opened(ps: seq<string>, env: Env): (inner: Env)
    ensures inner.Keys == env.Keys + Names(ps)
  {
    map x | x in env.Keys + Names(ps) :: if x in env && x !in ps then env[x] else UnitValue
  }

  /** The continuation of a live jump is ready to be expanded in its own scope. */
  lemma JumpGoing(l: string, ctx: Context, ctx': Context, k: nat, env: Env, s: Joins, s': Joins, taken: set<Name>,
                  strict: bool)
    requires JoinsReady(s, s', ctx, ctx', strict) && s.Join? && s.target == l && l in ctx.jumped
    requires Entry(s', env, taken, ctx') && k > 0 && Expandable(s.cont, ctx, k - 1) && Unique(s.cont)
    ensures Going(s.cont, ctx, ctx', k - 1, Opened(s.params, s.env), s, s', strict)
  {
    var inner := Opened(s.params, s.env);
    var c' := Prune(s.cont, ctx.jumped);
    forall n | L(n) in Free(c')
      ensures Entry(Find(n, s'), inner, Bound(c'), ctx')
    {
      assert n != s'.target;
      assert Entry(Find(n, s'.outer), s'.env, Bound(s'.cont) + Vars(s'.params), ctx');
      EntryWider(Find(n, s'.outer), s'.env, Bound(s'.cont) + Vars(s'.params), inner, Bound(c'), ctx');
    }
  }

  lemma EntryWider(s: Joins, env: Env, taken: set<Name>, env': Env, taken': set<Name>, ctx: Context)
    requires Entry(s, env, taken, ctx) && Within(env, env')
    requires forall x :: x in env' || V(x) in taken' ==> x in env || V(x) in taken
    ensures Entry(s, env', taken', ctx)
  {}

  lemma {:induction false} LetsPads(ps: seq<string>, es1: Exprs, es2: Exprs, c1: Expr, c2: Expr, vars: set<string>,
                                    strict: bool)
    requires |ps| == Len(es1) == Len(es2)
    requires PaddedAll(es1, es2, vars, strict) && VarsIn(FreeAll(es1), vars)
    requires Padded(c1, c2, vars + Names(ps), strict) && VarsIn(Free(c1), vars + Names(ps))
    ensures Padded(Lets(ps, es1, c1), Lets(ps, es2, c2), vars, strict)
    ensures VarsIn(Free(Lets(ps, es1, c1)), vars)
    decreases es1
  {
    match es1
    case Nil => assert vars + Names(ps) == vars;
    case Cons(e, tail) =>
      var more := vars + {ps[0]};
      PaddedMoreAll(tail, es2.tail, vars, more, strict);
      assert more + Names(ps[1..]) == vars + Names(ps);
      LetsPads(ps[1..], tail, es2.tail, c1, c2, more, strict);
  }

  lemma {:induction false} ExpansionPadsAll(
    es: Exprs, ctx: Context, ctx': Context, k: nat, env: Env, js: Joins, js': Joins, strict: bool)
    requires GoingAll(es, ctx, ctx', k, env, js, js', strict)
    ensures PadsAll(es, ctx, ctx', k, env.Keys, strict)
    decreases k, es
  {
    match es
    case Nil =>
    case Cons(e, tail) =>
      var es' := PruneAll(es, ctx.jumped);
      Narrow(FreeAll(es'), BoundAll(es'), env, Free(es'.head), Bound(es'.head), env, js', ctx');
      Narrow(FreeAll(es'), BoundAll(es'), env, FreeAll(es'.tail), BoundAll(es'.tail), env, js', ctx');
      ExpansionPads(e, ctx, ctx', k, env, js, js', strict);
      ExpansionPadsAll(tail, ctx, ctx', k, env, js, js', strict);
  }

  lemma {:induction false} ExpansionPadsAlts(
    alts: Alts, ctx: Context, ctx': Context, k: nat, env: Env, js: Joins, js': Joins, strict: bool)
    requires GoingAlts(alts, ctx, ctx', k, env, js, js', strict)
    ensures PadsAlts(alts, ctx, ctx', k, env.Keys, strict)
    decreases k, alts
  {
    match alts
    case NoMore =>
    case Default(b) => ExpansionPads(b, ctx, ctx', k, env, js, js', strict);
    case Alt(_, bs, b, rest) =>
      GoingAlt(alts, ctx, ctx', k, env, js, js', strict);
      ExpansionPads(b, ctx, ctx', k, Opened(bs, env), js, js', strict);
      ExpansionPadsAlts(rest, ctx, ctx', k, env, js, js', strict);
      AltPads(alts, ctx, ctx', k, env.Keys, strict);
  }

  lemma GoingAlt(alts: Alts, ctx: Context, ctx': Context, k: nat, env: Env, js: Joins, js': Joins, strict: bool)
    requires alts.Alt? && GoingAlts(alts, ctx, ctx', k, env, js, js', strict)
    ensures Going(alts.body, ctx, ctx', k, Opened(alts.binders, env), js, js', strict)
    ensures GoingAlts(alts.rest, ctx, ctx', k, env, js, js', strict)
  {
    var alts' := PruneAlts(alts, ctx.jumped);
    NarrowAlt(alts', env, Opened(alts.binders, env), js', ctx');
    Narrow(FreeAlts(alts'), BoundAlts(alts'), env, FreeAlts(alts'.rest), BoundAlts(alts'.rest), env, js', ctx');
  }

  lemma AltPads(alts: Alts, ctx: Context, ctx': Context, k: nat, vars: set<string>, strict: bool)
    requires alts.Alt? && Pads(alts.body, ctx, ctx', k, vars + Names(alts.binders), strict)
    requires PadsAlts(alts.rest, ctx, ctx', k, vars, strict)
    ensures PadsAlts(alts, ctx, ctx', k, vars, strict)
  {}

  lemma NarrowAlt(alts: Alts, env: Env, inner: Env, js: Joins, ctx: Context)
    requires alts.Alt? && StaticAlts(alts, env.Keys, ctx) && inner == Opened(alts.binders, env)
    requires JoinExpansion.Ready(FreeAlts(alts), BoundAlts(alts), env, js, ctx)
    ensures Static(alts.body, inner.Keys, ctx)
    ensures JoinExpansion.Ready(Free(alts.body), Bound(alts.body), inner, js, ctx)
  {
    assert forall x :: x in alts.binders ==> V(x) in BoundAlts(alts);
    Narrow(FreeAlts(alts), BoundAlts(alts), env, Free(alts.body), Bound(alts.body), inner, js, ctx);
  }

  // ---- factoring keeps a body tame ----

  lemma {:induction false} NoDestination(e: Expr)
    requires JoinFree(e)
    ensures TailDestination(e).None?
  {
    match e
    case Let(_, _, b) => NoDestination(b);
    case If(_, t, _) => NoDestination(t);
    case Match(_, alts) => NoDestinationAlts(alts);
    case _ =>
  }

  lemma {:induction false} NoDestinationAlts(alts: Alts)
    requires JoinFreeAlts(alts)
    ensures TailDestinationAlts(alts).None?
  {
    match alts
    case NoMore =>
    case Default(b) => NoDestination(b);
    case Alt(_, _, b, _) => NoDestination(b);
  }

  /** Without joins there is nothing to factor. */
  lemma {:induction false} NothingToFactor(e: Expr, available: set<string>, tail: bool)
    requires JoinFree(e)
    ensures Factor(e, available, tail) == e
  {
    NoDestination(e);
    match e
    case Lit(_) =>
    case Var(_) =>
    case Param(_) =>
    case Unreachable =>
    case Prim(_, es) => NothingToFactorAll(es, available);
    case If(c, t, f) =>
      NothingToFactor(c, available, false);
      NothingToFactor(t, available, tail);
      NothingToFactor(f, available, tail);
    case Let(_, v, b) =>
      NothingToFactor(v, available, false);
      NothingToFactor(b, available, tail);
    case Match(s, alts) =>
      NothingToFactor(s, available, false);
      NothingToFactorAlts(alts, available, tail);
    case Call(_, es) => NothingToFactorAll(es, available);
  }

  lemma {:induction false} NothingToFactorAll(es: Exprs, available: set<string>)
    requires JoinFreeAll(es)
    ensures FactorAll(es, available) == es
  {
    match es
    case Nil =>
    case Cons(e, tail) =>
      NothingToFactor(e, available, false);
      NothingToFactorAll(tail, available);
  }

  lemma {:induction false} NothingToFactorAlts(alts: Alts, available: set<string>, tail: bool)
    requires JoinFreeAlts(alts)
    ensures FactorAlts(alts, available, tail) == alts
  {
    match alts
    case NoMore =>
    case Default(b) => NothingToFactor(b, available, tail);
    case Alt(_, _, b, rest) =>
      NothingToFactor(b, available, tail);
      NothingToFactorAlts(rest, available, tail);
  }

  lemma {:induction false} TakeTailTame(e: Expr, l: string, live: set<string>, strict: bool)
    requires TailDestination(e) == Some(l) && L(l) !in Bound(e) && Tame(e, live, strict)
    ensures Tame(TakeTail(e, l), live, strict)
  {
    match e
    case Jmp(_, es) => assert TameAll(es, live, strict) ==> Tame(es.head, live, strict);
    case Let(_, _, b) =>
      TakeTailNames(b, l);
      TakeTailTame(b, l, live, strict);
    case If(_, t, f) =>
      TakeTailTame(t, l, live, strict);
      TakeTailTame(f, l, live, strict);
    case Match(_, alts) => TakeTailTameAlts(alts, l, live, strict);
  }

  lemma {:induction false} TakeTailTameAlts(alts: Alts, l: string, live: set<string>, strict: bool)
    requires TailDestinationAlts(alts) == Some(l) && L(l) !in BoundAlts(alts) && TameAlts(alts, live, strict)
    ensures TameAlts(TakeTailAlts(alts, l), live, strict)
  {
    match alts
    case Default(b) => TakeTailTame(b, l, live, strict);
    case Alt(_, _, b, rest) =>
      TakeTailTame(b, l, live, strict);
      if !rest.NoMore? {
        TakeTailTameAlts(rest, l, live, strict);
      }
  }

  lemma HoistTame(e: Expr, available: set<string>, tail: bool, live: set<string>, strict: bool)
    requires Fresh(available, Bound(e)) && Tame(e, live, strict)
    ensures Tame(Hoist(e, available, tail), live, strict)
  {
    if Hoist(e, available, tail) != e {
      var l := TailDestination(e).value;
      TakeTailTame(e, l, live, strict);
      assert TameAll(Cons(TakeTail(e, l), Nil).tail, live, strict);
    }
  }

  lemma {:induction false} FactorTame(e: Expr, available: set<string>, tail: bool, live: set<string>, strict: bool)
    requires Factorable(e, available) && Tame(e, live, strict)
    ensures Tame(Factor(e, available, tail), live, strict)
    decreases e, 1
  {
    match e
    case Lit(_) =>
    case Var(_) =>
    case Param(_) =>
    case Unreachable =>
    case Prim(_, es) => FactorTameAll(es, available, live, strict);
    case If(_, _, _) => FactorTameBranches(e, available, tail, live, strict);
    case Match(_, _) => FactorTameBranches(e, available, tail, live, strict);
    case Let(_, _, _) => FactorTameLet(e, available, tail, live, strict);
    case Call(_, es) => FactorTameAll(es, available, live, strict);
    case Jp(_, _, c) =>
      assert Factorable(c, available);
      FactorTame(c, available, true, live, strict);
    case Jmp(_, es) => FactorTameAll(es, available, live, strict);
  }

  lemma {:induction false} FactorTameLet(e: Expr, available: set<string>, tail: bool, live: set<string>, strict: bool)
    requires e.Let? && Factorable(e, available) && Tame(e, live, strict)
    ensures Tame(Factor(e, available, tail), live, strict)
    decreases e, 0
  {
    var Let(x, v, b) := e;
    var inner := if v.Jp? then available + {v.target} else available;
    assert Factorable(b, inner);
    FactorNames(b, inner, tail);
    FactorTame(b, inner, tail, live, strict);
    if v.Jp? && v.target !in live {
      QuietJoinFree(v.cont);
      NothingToFactor(v.cont, available, true);
    } else {
      FactorNames(v, available, false);
      FactorTame(v, available, false, live, strict);
      assert v.Jp? ==> Factor(v, available, false).target == v.target;
    }
  }

  lemma {:induction false} FactorTameBranches(e: Expr, available: set<string>, tail: bool, live: set<string>,
                                              strict: bool)
    requires (e.If? || e.Match?) && Factorable(e, available) && Tame(e, live, strict)
    ensures Tame(Factor(e, available, tail), live, strict)
    decreases e, 0
  {
    if e.If? {
      FactorNames(e.cond, available, false);
      FactorNames(e.yes, available, tail);
      FactorNames(e.no, available, tail);
      FactorTame(e.cond, available, false, live, strict);
      FactorTame(e.yes, available, tail, live, strict);
      FactorTame(e.no, available, tail, live, strict);
      HoistTame(If(Factor(e.cond, available, false), Factor(e.yes, available, tail), Factor(e.no, available, tail)),
                available, tail, live, strict);
    } else {
      FactorNames(e.scrut, available, false);
      FactorNamesAlts(e.alts, available, tail);
      FactorTame(e.scrut, available, false, live, strict);
      FactorTameAlts(e.alts, available, tail, live, strict);
      HoistTame(Match(Factor(e.scrut, available, false), FactorAlts(e.alts, available, tail)),
                available, tail, live, strict);
    }
  }

  lemma {:induction false} FactorTameAll(es: Exprs, available: set<string>, live: set<string>, strict: bool)
    requires UniqueAll(es) && Fresh(available, BoundAll(es)) && TameAll(es, live, strict)
    ensures TameAll(FactorAll(es, available), live, strict)
    decreases es
  {
    match es
    case Nil =>
    case Cons(e, tail) =>
      FactorTame(e, available, false, live, strict);
      FactorTameAll(tail, available, live, strict);
  }

  lemma {:induction false} FactorTameAlts(alts: Alts, available: set<string>, tail: bool, live: set<string>,
                                          strict: bool)
    requires UniqueAlts(alts) && Fresh(available, BoundAlts(alts)) && TameAlts(alts, live, strict)
    ensures TameAlts(FactorAlts(alts, available, tail), live, strict)
    decreases alts
  {
    match alts
    case NoMore =>
    case Default(b) => FactorTame(b, available, tail, live, strict);
    case Alt(_, _, b, rest) =>
      FactorTame(b, available, tail, live, strict);
      FactorTameAlts(rest, available, tail, live, strict);
  }

  // ---- bodies without dead joins are tame ----

  lemma {:induction false} LiveTame(e: Expr, live: set<string>, strict: bool)
    requires DeclsOf(e).Keys <= live
    ensures Tame(e, live, strict)
  {
    match e
    case Lit(_) =>
    case Var(_) =>
    case Param(_) =>
    case Unreachable =>
    case Prim(_, es) => LiveTameAll(es, live, strict);
    case If(c, t, f) =>
      LiveTame(c, live, strict);
      LiveTame(t, live, strict);
      LiveTame(f, live, strict);
    case Let(_, v, b) =>
      assert v.Jp? ==> v.target in DeclsOf(v);
      LiveTame(v, live, strict);
      LiveTame(b, live, strict);
    case Match(s, alts) =>
      LiveTame(s, live, strict);
      LiveTameAlts(alts, live, strict);
    case Call(_, es) => LiveTameAll(es, live, strict);
    case Jp(l, _, c) =>
      assert l in DeclsOf(e);
      LiveTame(c, live, strict);
    case Jmp(_, es) => LiveTameAll(es, live, strict);
  }

  lemma {:induction false} LiveTameAll(es: Exprs, live: set<string>, strict: bool)
    requires DeclsOfAll(es).Keys <= live
    ensures TameAll(es, live, strict)
  {
    match es
    case Nil =>
    case Cons(e, tail) =>
      LiveTame(e, live, strict);
      LiveTameAll(tail, live, strict);
  }

  lemma {:induction false} LiveTameAlts(alts: Alts, live: set<string>, strict: bool)
    requires DeclsOfAlts(alts).Keys <= live
    ensures TameAlts(alts, live, strict)
  {
    match alts
    case NoMore =>
    case Default(b) => LiveTame(b, live, strict);
    case Alt(_, _, b, rest) =>
      LiveTame(b, live, strict);
      LiveTameAlts(rest, live, strict);
  }

  /** A body whose joins are all jumped to needs no other check. */
  lemma NoDeadJoinsTame(body: Expr)
    requires NoDeadJoins(body)
    ensures TameBody(body, true)
  {
    LiveTame(body, JumpsOf(body), true);
  }

  // ---- expansion preserves the meaning of tame bodies ----

  /** `body'` is the expansion of `x`, which has no direct jump cycle. */
  ghost predicate ExpandsAs(x: Expr, body': Expr) {
    Acyclic(Collect(x)) && Expandable(x, Collect(x), MAX_DEPTH) && body' == Inlined(x, Collect(x), MAX_DEPTH)
  }

  /** The pruned body expands, and what the pass emits pads its expansion. */
  lemma PassPads(params: seq<string>, x: Expr, body': Expr, strict: bool)
    requires Lexical(params, x) && TameBody(x, strict) && ExpandsAs(x, body')
    ensures var pruned := Prune(x, JumpsOf(x));
      && Expandable(pruned, Collect(pruned), MAX_DEPTH)
      && ExpandsTo(params, pruned, Inlined(pruned, Collect(pruned), MAX_DEPTH))
      && Padded(Inlined(pruned, Collect(pruned), MAX_DEPTH), body', Names(params), strict)
      && VarsIn(Free(Inlined(pruned, Collect(pruned), MAX_DEPTH)), Names(params))
  {
    var live := JumpsOf(x);
    var pruned := Prune(x, live);
    var ctx, ctx' := Collect(x), Collect(pruned);
    var env := Opened(params, map[]);
    PruneNames(x, live);
    PruneContext(x, live, strict);
    UniqueKnown(x, ctx);
    PrunedSound(x, strict);
    Records(pruned, ctx');
    assert env.Keys == Names(params);
    assert Going(x, ctx, ctx', MAX_DEPTH, env, NoJoin, NoJoin, strict);
    ExpansionPads(x, ctx, ctx', MAX_DEPTH, env, NoJoin, NoJoin, strict);
  }

  lemma PrunedSound(x: Expr, strict: bool)
    requires TameBody(x, strict) && Acyclic(Collect(x))
    ensures Sound(DeclsOf(Prune(x, JumpsOf(x))), Collect(Prune(x, JumpsOf(x))))
  {
    var live := JumpsOf(x);
    var pruned := Prune(x, live);
    PruneContext(x, live, strict);
    forall l | l in DeclsOf(pruned)
      ensures l in JumpsOf(pruned) && l !in JumpsOf(DeclsOf(pruned)[l].cont)
    {
      PruneContext(DeclsOf(x)[l].cont, live, strict);
    }
  }

  lemma FactoredTame(params: seq<string>, body: Expr, strict: bool)
    requires Lexical(params, body) && TameBody(body, strict)
    ensures Lexical(params, Factor(body, {}, true)) && TameBody(Factor(body, {}, true), strict)
  {
    FactorNames(body, {}, true);
    FactorContext(body, {}, true);
    FactorTame(body, {}, true, JumpsOf(body), strict);
  }

  lemma PlainExpands(body: Expr)
    requires DeclsOf(body) == map[] && forall l :: L(l) !in Free(body)
    ensures ExpandsAs(body, body)
  {
    var _ := JoinOrigin(body);
    JoinFreeInlined(body, Collect(body), MAX_DEPTH);
  }

  lemma MiddleExpandsAs(body: Expr, body': Expr)
    requires PassResult(body, body') && forall l :: L(l) !in Free(body)
    ensures ExpandsAs(Middle(body, body'), body')
    ensures Middle(body, body') == body || Middle(body, body') == Factor(body, {}, true)
  {
    if DeclsOf(body) == map[] {
      PlainExpands(body);
    } else {
      var on: bool :| ExpandedFrom(Image(body, on, {}, true), body');
      assert ExpandedFrom(Middle(body, body'), body');
    }
  }

  /** What the pass returns for a body is the expansion of a tame middle tree. */
  lemma MiddlePads(params: seq<string>, body: Expr, body': Expr, strict: bool)
    requires Lexical(params, body) && TameBody(body, strict) && PassResult(body, body')
    ensures var x := Middle(body, body');
      FactorsTo(body, x) && Lexical(params, x) && TameBody(x, strict) && ExpandsAs(x, body')
  {
    FactoredTame(params, body, strict);
    MiddleExpandsAs(body, body');
    assert body == Image(body, false, {}, true) && Factor(body, {}, true) == Image(body, true, {}, true);
  }

  ghost predicate AllTame(m: Machine, strict: bool) {
    forall g :: g in m.defs ==> Lexical(m.defs[g].params, m.defs[g].body) && TameBody(m.defs[g].body, strict)
  }

  /** Join expansion preserves every run of tame bodies, dead joins included.  A dead join
      that computes (`!strict`) may turn a run into code that does not compile, never into
      another value, error or panic. */
  lemma ExpansionRefinesRuns(m1: Machine, m2: Machine, calls: nat, f: string, vs: seq<Value>, strict: bool)
    requires PassedMachine(m1, m2) && AllTame(m1, strict)
    ensures Same(strict, Run(m1, calls, f, vs), Run(m2, calls, f, vs))
  {
    var factored := Factored(m1, m2);
    var pruned := Pruning(factored);
    var inlined := Inlining(pruned);
    FactoredStep(m1, m2, strict);
    PrunedStep(m1, m2, strict);
    InlinedStep(m1, m2, strict);
    PaddedStep(m1, m2, strict);
    FactorRun(m1, factored, calls, f, vs);
    PruneRun(factored, pruned, calls, f, vs, strict);
    InlineRun(pruned, inlined, calls, f, vs);
    PaddedRun(inlined, m2, calls, f, vs, strict);
  }

  /** Where dead joins are inert, or there are none, every run is the same: value, error,
      panic and fuel use. */
  lemma ExpansionPreservesRuns(m1: Machine, m2: Machine, calls: nat, f: string, vs: seq<Value>)
    requires PassedMachine(m1, m2) && AllTame(m1, true)
    ensures Run(m1, calls, f, vs) == Run(m2, calls, f, vs)
  {
    ExpansionRefinesRuns(m1, m2, calls, f, vs, true);
  }

  // The three modules between the source and what the pass emits.

  ghost function Factored(m1: Machine, m2: Machine): Machine
    requires m1.defs.Keys == m2.defs.Keys
  {
    m1.(defs := map g | g in m1.defs :: m1.defs[g].(body := Middle(m1.defs[g].body, m2.defs[g].body)))
  }

  function Pruning(m: Machine): Machine {
    m.(defs := map g | g in m.defs :: m.defs[g].(body := Prune(m.defs[g].body, JumpsOf(m.defs[g].body))))
  }

  function Inlining(m: Machine): Machine {
    m.(defs := map g | g in m.defs :: m.defs[g].(body := Whole(m.defs[g].body)))
  }

  function Whole(x: Expr): Expr {
    if Expandable(x, Collect(x), MAX_DEPTH) then Inlined(x, Collect(x), MAX_DEPTH) else x
  }

  ghost predicate Refined(d: Definition, body': Expr, strict: bool) {
    var x := Middle(d.body, body');
    var pruned := Prune(x, JumpsOf(x));
    && FactorsTo(d.body, x) && TameBody(x, strict)
    && ExpandsTo(d.params, pruned, Whole(pruned))
    && Padded(Whole(pruned), body', Names(d.params), strict)
  }

  lemma BodyRefined(m1: Machine, m2: Machine, g: string, strict: bool)
    requires PassedMachine(m1, m2) && AllTame(m1, strict) && g in m1.defs
    ensures Refined(m1.defs[g], m2.defs[g].body, strict)
  {
    MiddlePads(m1.defs[g].params, m1.defs[g].body, m2.defs[g].body, strict);
    PassPads(m1.defs[g].params, Middle(m1.defs[g].body, m2.defs[g].body), m2.defs[g].body, strict);
  }

  lemma FactoredStep(m1: Machine, m2: Machine, strict: bool)
    requires PassedMachine(m1, m2) && AllTame(m1, strict)
    ensures FactoredMachine(m1, Factored(m1, m2))
  {
    forall g | g in m1.defs
      ensures Refined(m1.defs[g], m2.defs[g].body, strict)
    {
      BodyRefined(m1, m2, g, strict);
    }
  }

  lemma PrunedStep(m1: Machine, m2: Machine, strict: bool)
    requires PassedMachine(m1, m2) && AllTame(m1, strict)
    ensures PrunedMachine(Factored(m1, m2), Pruning(Factored(m1, m2)), strict)
  {
    forall g | g in m1.defs
      ensures Refined(m1.defs[g], m2.defs[g].body, strict)
    {
      BodyRefined(m1, m2, g, strict);
    }
  }

  lemma InlinedStep(m1: Machine, m2: Machine, strict: bool)
    requires PassedMachine(m1, m2) && AllTame(m1, strict)
    ensures ExpandedMachine(Pruning(Factored(m1, m2)), Inlining(Pruning(Factored(m1, m2))))
  {
    forall g | g in m1.defs
      ensures Refined(m1.defs[g], m2.defs[g].body, strict)
    {
      BodyRefined(m1, m2, g, strict);
    }
  }

  lemma PaddedStep(m1: Machine, m2: Machine, strict: bool)
    requires PassedMachine(m1, m2) && AllTame(m1, strict)
    ensures PaddedMachine(Inlining(Pruning(Factored(m1, m2))), m2, strict)
  {
    forall g | g in m1.defs
      ensures Refined(m1.defs[g], m2.defs[g].body, strict)
    {
      BodyRefined(m1, m2, g, strict);
    }
  }

  /** Expanded bodies stay closed over the parameters. */
  lemma ExpandedClosed(params: seq<string>, body: Expr, body': Expr, strict: bool)
    requires Lexical(params, body) && TameBody(body, strict) && PassResult(body, body')
    ensures VarsIn(Free(body'), Names(params)) && JoinFree(body')
  {
    MiddlePads(params, body, body', strict);
    var x := Middle(body, body');
    PassPads(params, x, body', strict);
    var pruned := Prune(x, JumpsOf(x));
    PaddedFree(Inlined(pruned, Collect(pruned), MAX_DEPTH), body', Names(params), strict);
  }

  // ---- one dead join, exactly ----

  /** An inert dead join changes nothing if and only if it is in scope, or the rest does not
      compile either. */
  lemma InertDeadJoinRuns(m: Machine, calls: nat, jumps: nat, actuals: seq<Value>,
                          g: string, ps: seq<string>, cont: Expr, body: Expr, env: Env)
    requires Inert(cont) && JoinFree(body) && V(g) !in Free(body)
    ensures var e := DeadJoin(g, ps, cont, body);
      && Expandable(e, Collect(e), 0)
      && (Eval(m, calls, jumps, actuals, e, env, NoJoin)
            == Eval(m, calls, jumps, actuals, Inlined(e, Collect(e), 0), env, NoJoin)
          <==> VarsIn(Free(cont), env.Keys) || Eval(m, calls, jumps, actuals, body, env, NoJoin) == Stuck)
  {
    InertQuiet(cont);
    QuietJoinFree(cont);
    DeadJoinRuns(m, calls, jumps, actuals, g, ps, cont, body, env);
    InertEval(m, calls, jumps, actuals, cont, env);
  }

  /** A body that starts with an inert dead join, and is tame otherwise. */
  predicate InertHead(body: Expr) {
    && body.Let? && body.value.Jp? && body.value.target !in JumpsOf(body)
    && Inert(body.value.cont) && V(body.name) !in Free(body.body) && Tame(body.body, JumpsOf(body), true)
  }

  lemma HeadTame(body: Expr)
    requires InertHead(body) && Vars(body.value.params) !! Free(body.value.cont)
    ensures TameBody(body, true)
  {
    InertQuiet(body.value.cont);
  }

  lemma HeadMiddle(body: Expr, x: Expr)
    requires Unique(body) && InertHead(body) && (x == body || x == Factor(body, {}, true))
    ensures x.Let? && x.value == body.value && JumpsOf(x) == JumpsOf(body)
  {
    FactorContext(body, {}, true);
    InertQuiet(body.value.cont);
    QuietJoinFree(body.value.cont);
    NothingToFactor(body.value.cont, {}, true);
  }

  lemma HeadInlined(x: Expr, ctx: Context, k: nat)
    requires x.Let? && x.value.Jp? && x.value.target !in ctx.jumped && JoinFree(x.value.cont) && Expandable(x, ctx, k)
    ensures Inlined(x, ctx, k).Let? && Inlined(x, ctx, k).value == x.value.cont
  {
    JoinFreeInlined(x.value.cont, ctx, k);
  }

  /** What the pass emits starts by running the dead continuation. */
  lemma HeadEmitted(params: seq<string>, body: Expr, body': Expr)
    requires Lexical(params, body) && InertHead(body) && PassResult(body, body')
    ensures body'.Let? && body'.value == body.value.cont
  {
    var x := Middle(body, body');
    MiddleExpandsAs(body, body');
    HeadMiddle(body, x);
    InertQuiet(body.value.cont);
    QuietJoinFree(body.value.cont);
    HeadInlined(x, Collect(x), MAX_DEPTH);
  }

  /** Every run of such a definition is preserved if and only if the dead continuation does
      not use its own parameters; otherwise the emitted definition does not compile. */
  lemma InertHeadExact(m1: Machine, m2: Machine, calls: nat, f: string, vs: seq<Value>)
    requires PassedMachine(m1, m2) && f in m1.defs && |m1.defs[f].params| == |vs|
    requires InertHead(m1.defs[f].body) && Lexical(m1.defs[f].params, m1.defs[f].body)
    requires forall g :: g in m1.defs && g != f ==>
               Lexical(m1.defs[g].params, m1.defs[g].body) && TameBody(m1.defs[g].body, true)
    ensures Run(m1, calls, f, vs) == Run(m2, calls, f, vs) <==>
            Vars(m1.defs[f].body.value.params) !! Free(m1.defs[f].body.value.cont) || Run(m1, calls, f, vs) == Stuck
  {
    var d := m1.defs[f];
    var Jp(_, ps, cont) := d.body.value;
    if Vars(ps) !! Free(cont) {
      HeadTame(d.body);
      ExpansionPreservesRuns(m1, m2, calls, f, vs);
    } else {
      HeadStuck(m2, calls, d.params, vs, d.body, m2.defs[f].body);
    }
  }

  lemma HeadStuck(m: Machine, calls: nat, params: seq<string>, vs: seq<Value>, body: Expr, body': Expr)
    requires |params| == |vs| && Lexical(params, body) && InertHead(body) && PassResult(body, body')
    requires !(Vars(body.value.params) !! Free(body.value.cont))
    ensures Eval(m, calls, m.jumps, vs, body', Bind(params, vs, map[]), NoJoin) == Stuck
  {
    var env := Bind(params, vs, map[]);
    BindKeys(params, vs, map[]);
    HeadEmitted(params, body, body');
    var n :| n in Vars(body.value.params) && n in Free(body.value.cont);
    assert n in Bound(body) && n.name !in env;
    InertEval(m, calls, m.jumps, vs, body.value.cont, env);
    assert !VarsIn(Free(body.value.cont), env.Keys);
  }

  // ---- the example ----

  /** `let g = jp g () unreachable in n`. */
  function DeadPanic(g: string, n: nat): Expr {
    DeadJoin(g, [], Unreachable, Lit(NatLit(n)))
  }

  function Alone(f: string, body: Expr): Machine {
    Machine(map[f := Definition(f, [], [], Scalar, body)], MAX_DEPTH, true)
  }

  lemma DeadPanicFits(g: string, n: nat, k: nat)
    ensures var e := DeadPanic(g, n);
      && DeclsOf(e) == map[g := Decl([], Unreachable)] && JumpsOf(e) == {}
      && Expandable(e, Collect(e), k) && Inlined(e, Collect(e), k) == Let(g, Unreachable, Lit(NatLit(n)))
  {
    var v, b := Jp(g, [], Unreachable), Lit(NatLit(n));
    assert JumpsOf(v) == {} && JumpsOf(b) == {} && DeclsOf(v) == map[g := Decl([], Unreachable)] && DeclsOf(b) == map[];
    assert Inlined(v, Context(DeclsOf(v), {}), k) == Unreachable;
  }

  lemma DeadPanicNames(g: string)
    ensures var v := Jp(g, [], Unreachable);
      Unique(v) && Free(v) == {} && Bound(v) == {L(g)} && Factor(v, {}, false) == v
  {
    var v, u := Jp(g, [], Unreachable), Unreachable;
    assert Unique(u) && Free(u) == {} && Bound(u) == {} && Factor(u, {}, true) == u;
  }

  lemma DeadPanicAccepted(g: string, n: nat)
    ensures Accepts(DeadPanic(g, n)) && Lexical([], DeadPanic(g, n))
  {
    var e := DeadPanic(g, n);
    var v, b := e.value, e.body;
    DeadPanicFits(g, n, MAX_DEPTH);
    assert Children(e) == [v, b] && Children(v) == [Unreachable] && Children(Unreachable) == [] && Children(b) == [];
    DeadPanicNames(g);
    assert Unique(b) && Free(b) == {} && Bound(b) == {};
    assert Size(Let(g, Unreachable, b)) == 1 + Size(Unreachable) + Size(b) == 3;
  }

  /** The pass has only one way to expand it. */
  lemma DeadPanicExpands(g: string, n: nat, body': Expr)
    requires PassResult(DeadPanic(g, n), body')
    ensures body' == Let(g, Unreachable, Lit(NatLit(n)))
  {
    var e := DeadPanic(g, n);
    DeadPanicFits(g, n, MAX_DEPTH);
    assert g in DeclsOf(e);
    DeadPanicNames(g);
    assert Factor(e.body, {}, true) == e.body;
    DeadPanicAccepted(g, n);
    MiddleExpandsAs(e, body');
  }

  /** A dead join that panics: the pass accepts the body, the source returns `n` and the
      emitted code panics. */
  lemma DeadJoinPanics(f: string, g: string, n: nat, calls: nat, body': Expr)
    requires PassResult(DeadPanic(g, n), body')
    ensures Accepts(DeadPanic(g, n)) && Lexical([], DeadPanic(g, n))
    ensures Run(Alone(f, DeadPanic(g, n)), calls, f, []) == Ok(Nat(n))
    ensures Run(Alone(f, body'), calls, f, []) == Panic
  {
    DeadPanicAccepted(g, n);
    DeadPanicExpands(g, n, body');
    var m, e := Alone(f, DeadPanic(g, n)), DeadPanic(g, n);
    var unit: Env := map[g := UnitValue];
    assert Eval(m, calls, MAX_DEPTH, [], e.body, unit, Visible(e.value, map[], NoJoin)) == Ok(Nat(n));
    assert Eval(m, calls, MAX_DEPTH, [], e, map[], NoJoin) == Ok(Nat(n));
    assert Eval(Alone(f, body'), calls, MAX_DEPTH, [], Unreachable, map[], NoJoin) == Panic;
  }
}
