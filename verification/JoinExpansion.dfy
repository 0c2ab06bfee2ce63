/** Guarded inlining of acyclic continuations (`joins.rs`).

    `Inlined` is the tree the pass produces; `Expandable` says that it exists within a
    nesting budget.  The main result is `InlineRun`: a module whose definitions are
    replaced by their inlined bodies runs exactly as the source module, where joins are
    lexically scoped local functions.  Joins nobody jumps to are `DeadJoins`' subject.
 */
module JoinExpansion {
  import opened Ir
  import opened Semantics

  const MAX_NODES: nat := 65536
  const MAX_DEPTH: nat := 128

  datatype Decl = Decl(params: seq<string>, cont: Expr)

  /** Join points of one definition body, by label, and the labels some jump names. */
  datatype Context = Context(decls: map<string, Decl>, jumped: set<string>)

  function DeclsOf(e: Expr): map<string, Decl> {
    match e
    case Lit(_) => map[]
    case Var(_) => map[]
    case Param(_) => map[]
    case Prim(_, es) => DeclsOfAll(es)
    case If(c, t, f) => DeclsOf(c) + DeclsOf(t) + DeclsOf(f)
    case Let(_, v, b) => DeclsOf(v) + DeclsOf(b)
    case Match(s, alts) => DeclsOf(s) + DeclsOfAlts(alts)
    case Call(_, es) => DeclsOfAll(es)
    case Jp(l, ps, c) => map[l := Decl(ps, c)] + DeclsOf(c)
    case Jmp(_, es) => DeclsOfAll(es)
    case Unreachable => map[]
  }

  function DeclsOfAll(es: Exprs): map<string, Decl> {
    match es
    case Nil => map[]
    case Cons(e, tail) => DeclsOf(e) + DeclsOfAll(tail)
  }

  function DeclsOfAlts(alts: Alts): map<string, Decl> {
    match alts
    case NoMore => map[]
    case Default(b) => DeclsOf(b)
    case Alt(_, _, b, rest) => DeclsOf(b) + DeclsOfAlts(rest)
  }

  function JumpsOf(e: Expr): set<string> {
    match e
    case Lit(_) => {}
    case Var(_) => {}
    case Param(_) => {}
    case Prim(_, es) => JumpsOfAll(es)
    case If(c, t, f) => JumpsOf(c) + JumpsOf(t) + JumpsOf(f)
    case Let(_, v, b) => JumpsOf(v) + JumpsOf(b)
    case Match(s, alts) => JumpsOf(s) + JumpsOfAlts(alts)
    case Call(_, es) => JumpsOfAll(es)
    case Jp(_, _, c) => JumpsOf(c)
    case Jmp(l, es) => {l} + JumpsOfAll(es)
    case Unreachable => {}
  }

  function JumpsOfAll(es: Exprs): set<string> {
    match es
    case Nil => {}
    case Cons(e, tail) => JumpsOf(e) + JumpsOfAll(tail)
  }

  function JumpsOfAlts(alts: Alts): set<string> {
    match alts
    case NoMore => {}
    case Default(b) => JumpsOf(b)
    case Alt(_, _, b, rest) => JumpsOf(b) + JumpsOfAlts(rest)
  }

  /** How many jumps to a label a term contains. */
  function Sites(e: Expr, l: string): nat {
    match e
    case Lit(_) => 0
    case Var(_) => 0
    case Param(_) => 0
    case Prim(_, es) => SitesAll(es, l)
    case If(c, t, f) => Sites(c, l) + Sites(t, l) + Sites(f, l)
    case Let(_, v, b) => Sites(v, l) + Sites(b, l)
    case Match(s, alts) => Sites(s, l) + SitesAlts(alts, l)
    case Call(_, es) => SitesAll(es, l)
    case Jp(_, _, c) => Sites(c, l)
    case Jmp(g, es) => (if g == l then 1 else 0) + SitesAll(es, l)
    case Unreachable => 0
  }

  function SitesAll(es: Exprs, l: string): nat {
    match es
    case Nil => 0
    case Cons(e, tail) => Sites(e, l) + SitesAll(tail, l)
  }

  function SitesAlts(alts: Alts, l: string): nat {
    match alts
    case NoMore => 0
    case Default(b) => Sites(b, l)
    case Alt(_, _, b, rest) => Sites(b, l) + SitesAlts(rest, l)
  }

  /** The recorded number of jumps to a label (`jmp_count`). */
  function JmpCount(jumps: map<string, nat>, l: string): nat {
    if l in jumps then jumps[l] else 0
  }

  function Collect(body: Expr): Context {
    Context(DeclsOf(body), JumpsOf(body))
  }

  /** The walk that fills both tables (`JpContext`): later declarations of a label win. */
  class Collector {
    var decls: map<string, Decl>
    var jumps: map<string, nat>

    constructor ()
      ensures decls == map[] && jumps == map[]
    {
      decls, jumps := map[], map[];
    }

    /** Every recorded label has a positive count. */
    predicate Counted()
      reads this
    {
      forall l :: l in jumps ==> jumps[l] > 0
    }

    method Walk(e: Expr)
      requires Counted()
      modifies this
      ensures decls == old(decls) + DeclsOf(e)
      ensures jumps.Keys == old(jumps).Keys + JumpsOf(e) && Counted()
      ensures forall l :: JmpCount(jumps, l) == JmpCount(old(jumps), l) + Sites(e, l)
      decreases e, 1
    {
      match e
      case Lit(_) =>
      case Var(_) =>
      case Param(_) =>
      case Unreachable =>
      case Prim(_, es) => WalkAll(es);
      case Call(_, es) => WalkAll(es);
      case Jmp(_, _) => WalkJump(e);
      case Jp(_, _, _) => WalkJoin(e);
      case If(_, _, _) => WalkIf(e);
      case Let(_, _, _) => WalkLet(e);
      case Match(_, _) => WalkMatch(e);
    }

    method WalkJump(e: Expr)
      requires e.Jmp?
      requires Counted()
      modifies this
      ensures decls == old(decls) + DeclsOf(e)
      ensures jumps.Keys == old(jumps).Keys + JumpsOf(e) && Counted()
      ensures forall l :: JmpCount(jumps, l) == JmpCount(old(jumps), l) + Sites(e, l)
      decreases e, 0
    {
      jumps := jumps[e.target := (if e.target in jumps then jumps[e.target] else 0) + 1];
      WalkAll(e.args);
    }

    method WalkMatch(e: Expr)
      requires e.Match?
      requires Counted()
      modifies this
      ensures decls == old(decls) + DeclsOf(e)
      ensures jumps.Keys == old(jumps).Keys + JumpsOf(e) && Counted()
      ensures forall l :: JmpCount(jumps, l) == JmpCount(old(jumps), l) + Sites(e, l)
      decreases e, 0
    {
      Walk(e.scrut);
      WalkAlts(e.alts);
      assert decls == old(decls) + (DeclsOf(e.scrut) + DeclsOfAlts(e.alts));
    }

    method WalkJoin(e: Expr)
      requires e.Jp?
      requires Counted()
      modifies this
      ensures decls == old(decls) + DeclsOf(e)
      ensures jumps.Keys == old(jumps).Keys + JumpsOf(e) && Counted()
      ensures forall l :: JmpCount(jumps, l) == JmpCount(old(jumps), l) + Sites(e, l)
      decreases e, 0
    {
      var here := map[e.target := Decl(e.params, e.cont)];
      decls := decls[e.target := Decl(e.params, e.cont)];
      Walk(e.cont);
      assert decls == old(decls) + (here + DeclsOf(e.cont));
    }

    method WalkIf(e: Expr)
      requires e.If?
      requires Counted()
      modifies this
      ensures decls == old(decls) + DeclsOf(e)
      ensures jumps.Keys == old(jumps).Keys + JumpsOf(e) && Counted()
      ensures forall l :: JmpCount(jumps, l) == JmpCount(old(jumps), l) + Sites(e, l)
      decreases e, 0
    {
      Walk(e.cond);
      Walk(e.yes);
      Walk(e.no);
      assert decls == old(decls) + (DeclsOf(e.cond) + DeclsOf(e.yes) + DeclsOf(e.no));
    }

    method WalkLet(e: Expr)
      requires e.Let?
      requires Counted()
      modifies this
      ensures decls == old(decls) + DeclsOf(e)
      ensures jumps.Keys == old(jumps).Keys + JumpsOf(e) && Counted()
      ensures forall l :: JmpCount(jumps, l) == JmpCount(old(jumps), l) + Sites(e, l)
      decreases e, 0
    {
      Walk(e.value);
      Walk(e.body);
      assert decls == old(decls) + (DeclsOf(e.value) + DeclsOf(e.body));
    }

    method WalkAll(es: Exprs)
      requires Counted()
      modifies this
      ensures decls == old(decls) + DeclsOfAll(es)
      ensures jumps.Keys == old(jumps).Keys + JumpsOfAll(es) && Counted()
      ensures forall l :: JmpCount(jumps, l) == JmpCount(old(jumps), l) + SitesAll(es, l)
      decreases es
    {
      match es
      case Nil =>
      case Cons(e, tail) =>
        Walk(e);
        WalkAll(tail);
        assert decls == old(decls) + (DeclsOf(e) + DeclsOfAll(tail));
    }

    method WalkAlts(alts: Alts)
      requires Counted()
      modifies this
      ensures decls == old(decls) + DeclsOfAlts(alts)
      ensures jumps.Keys == old(jumps).Keys + JumpsOfAlts(alts) && Counted()
      ensures forall l :: JmpCount(jumps, l) == JmpCount(old(jumps), l) + SitesAlts(alts, l)
      decreases alts
    {
      match alts
      case NoMore =>
      case Default(b) => Walk(b);
      case Alt(_, _, b, rest) =>
        Walk(b);
        WalkAlts(rest);
        assert decls == old(decls) + (DeclsOf(b) + DeclsOfAlts(rest));
    }
  }

  method CollectJoins(body: Expr) returns (ctx: Context)
    ensures ctx == Collect(body)
  {
    var collector := new Collector();
    collector.Walk(body);
    assert map[] + DeclsOf(body) == DeclsOf(body);
    assert collector.jumps.Keys == JumpsOf(body);
    ctx := Context(collector.decls, collector.jumps.Keys);
  }

  // ---- the expanded tree ----

  function Lets(ps: seq<string>, es: Exprs, body: Expr): Expr
    requires |ps| == Len(es)
  {
    match es
    case Nil => body
    case Cons(e, tail) => Let(ps[0], e, Lets(ps[1..], tail, body))
  }

  /** Every jump met while inlining names a declaration of its arity, and jumps nest at
      most `k` deep. */
  predicate Expandable(e: Expr, ctx: Context, k: nat)
    decreases k, e
  {
    match e
    case Lit(_) => true
    case Var(_) => true
    case Param(_) => true
    case Prim(_, es) => ExpandableAll(es, ctx, k)
    case If(c, t, f) => Expandable(c, ctx, k) && Expandable(t, ctx, k) && Expandable(f, ctx, k)
    case Let(_, v, b) => Expandable(v, ctx, k) && Expandable(b, ctx, k)
    case Match(s, alts) => Expandable(s, ctx, k) && ExpandableAlts(alts, ctx, k)
    case Call(_, es) => ExpandableAll(es, ctx, k)
    case Jp(l, _, c) => l in ctx.jumped || Expandable(c, ctx, k)
    case Jmp(l, es) =>
      && k > 0
      && l in ctx.decls
      && |ctx.decls[l].params| == Len(es)
      && ExpandableAll(es, ctx, k)
      && Expandable(ctx.decls[l].cont, ctx, k - 1)
    case Unreachable => true
  }

  predicate ExpandableAll(es: Exprs, ctx: Context, k: nat)
    decreases k, es
  {
    match es
    case Nil => true
    case Cons(e, tail) => Expandable(e, ctx, k) && ExpandableAll(tail, ctx, k)
  }

  predicate ExpandableAlts(alts: Alts, ctx: Context, k: nat)
    decreases k, alts
  {
    match alts
    case NoMore => true
    case Default(b) => Expandable(b, ctx, k)
    case Alt(_, _, b, rest) => Expandable(b, ctx, k) && ExpandableAlts(rest, ctx, k)
  }

  function Inlined(e: Expr, ctx: Context, k: nat): Expr
    requires Expandable(e, ctx, k)
    decreases k, e
  {
    match e
    case Lit(_) => e
    case Var(_) => e
    case Param(_) => e
    case Prim(op, es) => Prim(op, InlinedAll(es, ctx, k))
    case If(c, t, f) => If(Inlined(c, ctx, k), Inlined(t, ctx, k), Inlined(f, ctx, k))
    case Let(x, v, b) => Let(x, Inlined(v, ctx, k), Inlined(b, ctx, k))
    case Match(s, alts) => Match(Inlined(s, ctx, k), InlinedAlts(alts, ctx, k))
    case Call(f, es) => Call(f, InlinedAll(es, ctx, k))
    case Jp(l, _, c) => if l in ctx.jumped then UnitExpr else Inlined(c, ctx, k)
    case Jmp(l, es) =>
      Lets(ctx.decls[l].params, InlinedAll(es, ctx, k), Inlined(ctx.decls[l].cont, ctx, k - 1))
    case Unreachable => e
  }

  function InlinedAll(es: Exprs, ctx: Context, k: nat): (r: Exprs)
    requires ExpandableAll(es, ctx, k)
    ensures Len(r) == Len(es)
    decreases k, es
  {
    match es
    case Nil => Nil
    case Cons(e, tail) => Cons(Inlined(e, ctx, k), InlinedAll(tail, ctx, k))
  }

  function InlinedAlts(alts: Alts, ctx: Context, k: nat): Alts
    requires ExpandableAlts(alts, ctx, k)
    decreases k, alts
  {
    match alts
    case NoMore => NoMore
    case Default(b) => Default(Inlined(b, ctx, k))
    case Alt(c, bs, b, rest) => Alt(c, bs, Inlined(b, ctx, k), InlinedAlts(rest, ctx, k))
  }

  // ---- what inlining relies on ----

  /** Every join is declared as recorded, is jumped to, and does not jump to itself. */
  predicate Recorded(e: Expr, ctx: Context) {
    match e
    case Lit(_) => true
    case Var(_) => true
    case Param(_) => true
    case Prim(_, es) => RecordedAll(es, ctx)
    case If(c, t, f) => Recorded(c, ctx) && Recorded(t, ctx) && Recorded(f, ctx)
    case Let(_, v, b) => Recorded(v, ctx) && Recorded(b, ctx)
    case Match(s, alts) => Recorded(s, ctx) && RecordedAlts(alts, ctx)
    case Call(_, es) => RecordedAll(es, ctx)
    case Jp(l, ps, c) =>
      && l in ctx.decls && ctx.decls[l] == Decl(ps, c)
      && l in ctx.jumped
      && L(l) !in Free(c)
      && Recorded(c, ctx)
    case Jmp(_, es) => RecordedAll(es, ctx)
    case Unreachable => true
  }

  predicate RecordedAll(es: Exprs, ctx: Context) {
    match es
    case Nil => true
    case Cons(e, tail) => Recorded(e, ctx) && RecordedAll(tail, ctx)
  }

  predicate RecordedAlts(alts: Alts, ctx: Context) {
    match alts
    case NoMore => true
    case Default(b) => Recorded(b, ctx)
    case Alt(_, _, b, rest) => Recorded(b, ctx) && RecordedAlts(rest, ctx)
  }

  /** Closed over `vars`, and binding none of them again. */
  ghost predicate Over(free: set<Name>, bound: set<Name>, vars: set<string>) {
    && (forall x :: V(x) in free ==> x in vars)
    && (forall x :: x in vars ==> V(x) !in bound)
  }

  ghost predicate Static(e: Expr, vars: set<string>, ctx: Context) {
    Unique(e) && Recorded(e, ctx) && Over(Free(e), Bound(e), vars)
  }

  ghost predicate StaticAll(es: Exprs, vars: set<string>, ctx: Context) {
    UniqueAll(es) && RecordedAll(es, ctx) && Over(FreeAll(es), BoundAll(es), vars)
  }

  ghost predicate StaticAlts(alts: Alts, vars: set<string>, ctx: Context) {
    UniqueAlts(alts) && RecordedAlts(alts, ctx) && Over(FreeAlts(alts), BoundAlts(alts), vars)
  }

  ghost predicate Within(inner: Env, outer: Env) {
    forall x :: x in inner ==> x in outer && outer[x] == inner[x]
  }

  function Names(ps: seq<string>): set<string> {
    set p | p in ps
  }

  /** A join a term with bound names `taken` may jump to from `env`: its environment is
      still visible there and its parameters are new, so its continuation can run in place. */
  ghost predicate Entry(s: Joins, env: Env, taken: set<Name>, ctx: Context)
    decreases Depth(s)
  {
    && s.Join?
    && s.target in ctx.decls && ctx.decls[s.target] == Decl(s.params, s.cont)
    && Within(s.env, env)
    && (forall p :: p in s.params ==> p !in env && V(p) !in taken)
    && Distinct(s.params)
    && L(s.target) !in Free(s.cont)
    && Static(s.cont, s.env.Keys + Names(s.params), ctx)
    && (forall l :: L(l) in Free(s.cont) ==>
          Entry(Find(l, s.outer), s.env, Bound(s.cont) + Vars(s.params), ctx))
  }

  ghost predicate Ready(free: set<Name>, bound: set<Name>, env: Env, js: Joins, ctx: Context) {
    forall l :: L(l) in free ==> Entry(Find(l, js), env, bound, ctx)
  }

  lemma Narrow(free: set<Name>, bound: set<Name>, env: Env, free': set<Name>, bound': set<Name>,
               env': Env, js: Joins, ctx: Context)
    requires Ready(free, bound, env, js, ctx)
    requires forall l :: L(l) in free' ==> L(l) in free
    requires Within(env, env')
    requires forall x :: x in env' || V(x) in bound' ==> x in env || V(x) in bound
    ensures Ready(free', bound', env', js, ctx)
  {
    forall l | L(l) in free'
      ensures Entry(Find(l, js), env', bound', ctx)
    {
      assert Entry(Find(l, js), env, bound, ctx);
    }
  }

  lemma JpStatic(v: Expr, vars: set<string>, ctx: Context)
    requires v.Jp? && Static(v, vars, ctx)
    ensures Static(v.cont, vars + Names(v.params), ctx)
    ensures L(v.target) !in Free(v.cont) && Distinct(v.params)
    ensures v.target in ctx.decls && ctx.decls[v.target] == Decl(v.params, v.cont)
  {
  }

  lemma LetStatic(e: Expr, vars: set<string>, ctx: Context)
    requires e.Let? && Static(e, vars, ctx)
    ensures Static(e.value, vars, ctx) && Static(e.body, vars + {e.name}, ctx)
    ensures e.name !in vars && V(e.name) !in Bound(e.value)
    ensures Bound(e.value) !! Bound(e.body)
  {
  }

  /** Declaring a join makes it an entry for the let body. */
  lemma Declare(e: Expr, env: Env, u: Value, js: Joins, ctx: Context)
    requires e.Let? && e.value.Jp?
    requires Static(e, env.Keys, ctx) && Ready(Free(e), Bound(e), env, js, ctx)
    ensures Ready(Free(e.body), Bound(e.body), env[e.name := u], Visible(e.value, env, js), ctx)
  {
    var v, b := e.value, e.body;
    LetStatic(e, env.Keys, ctx);
    JpStatic(v, env.Keys, ctx);
    var s := Visible(v, env, js);
    var env' := env[e.name := u];
    Narrow(Free(e), Bound(e), env, Free(v), Bound(v.cont) + Vars(v.params), env, js, ctx);
    assert Entry(s, env', Bound(b), ctx) by {
      assert Static(v.cont, env.Keys + Names(v.params), ctx) by { JpStatic(v, env.Keys, ctx); }
      forall l | L(l) in Free(v.cont)
        ensures Entry(Find(l, js), env, Bound(v.cont) + Vars(v.params), ctx)
      {
        assert L(l) in Free(v);
      }
    }
    Narrow(Free(e), Bound(e), env, Free(b) - {L(v.target)}, Bound(b), env', js, ctx);
  }

  lemma {:induction false} BindWithin(ps: seq<string>, vs: seq<Value>, inner: Env, outer: Env)
    requires |ps| == |vs| && Within(inner, outer)
    ensures Within(Bind(ps, vs, inner), Bind(ps, vs, outer))
  {
    if ps != [] {
      BindWithin(ps[1..], vs[1..], inner[ps[0] := vs[0]], outer[ps[0] := vs[0]]);
    }
  }

  // ---- inlining preserves evaluation ----

  /** `m2` is `m1` with every body inlined. */
  ghost predicate ExpandedMachine(m1: Machine, m2: Machine) {
    && m1.bounded == m2.bounded
    && m1.jumps >= MAX_DEPTH
    && m1.defs.Keys == m2.defs.Keys
    && (forall f :: f in m1.defs ==>
          var d1, d2 := m1.defs[f], m2.defs[f];
          && d1.params == d2.params
          && ExpandsTo(d1.params, d1.body, d2.body))
  }

  ghost predicate ExpandsTo(params: seq<string>, body: Expr, body': Expr) {
    var ctx := Collect(body);
    && Static(body, Names(params), ctx)
    && (forall l :: L(l) !in Free(body))
    && Expandable(body, ctx, MAX_DEPTH)
    && body' == Inlined(body, ctx, MAX_DEPTH)
  }

  lemma {:induction false} InlineEval(
    m1: Machine, m2: Machine, calls: nat, jumps: nat, jumps': nat, actuals: seq<Value>,
    e: Expr, env: Env, env': Env, js: Joins, ctx: Context, k: nat)
    requires ExpandedMachine(m1, m2) && Expandable(e, ctx, k) && k <= jumps
    requires Static(e, env.Keys, ctx) && Ready(Free(e), Bound(e), env, js, ctx)
    requires Within(env, env')
    ensures Eval(m1, calls, jumps, actuals, e, env, js)
         == Eval(m2, calls, jumps', actuals, Inlined(e, ctx, k), env', NoJoin)
    decreases calls, k, e, 1
  {
    match e
    case Lit(_) =>
    case Var(_) =>
    case Param(_) =>
    case Unreachable =>
    case Jp(_, _, _) =>
    case Prim(op, es) =>
      InlineEvalAll(m1, m2, calls, jumps, jumps', actuals, es, env, env', js, ctx, k);
    case If(c, t, f) =>
      InlineIf(m1, m2, calls, jumps, jumps', actuals, e, env, env', js, ctx, k);
    case Let(x, v, b) =>
      InlineLet(m1, m2, calls, jumps, jumps', actuals, e, env, env', js, ctx, k);
    case Match(_, _) =>
      InlineMatch(m1, m2, calls, jumps, jumps', actuals, e, env, env', js, ctx, k);
    case Call(_, _) =>
      InlineCall(m1, m2, calls, jumps, jumps', actuals, e, env, env', js, ctx, k);
    case Jmp(l, es) =>
      InlineJump(m1, m2, calls, jumps, jumps', actuals, e, env, env', js, ctx, k);
  }

  lemma {:induction false} InlineMatch(
    m1: Machine, m2: Machine, calls: nat, jumps: nat, jumps': nat, actuals: seq<Value>,
    e: Expr, env: Env, env': Env, js: Joins, ctx: Context, k: nat)
    requires e.Match?
    requires ExpandedMachine(m1, m2) && Expandable(e, ctx, k) && k <= jumps
    requires Static(e, env.Keys, ctx) && Ready(Free(e), Bound(e), env, js, ctx)
    requires Within(env, env')
    ensures Eval(m1, calls, jumps, actuals, e, env, js)
         == Eval(m2, calls, jumps', actuals, Inlined(e, ctx, k), env', NoJoin)
    decreases calls, k, e, 0
  {
    var Match(s, alts) := e;
    Narrow(Free(e), Bound(e), env, Free(s), Bound(s), env, js, ctx);
    Narrow(Free(e), Bound(e), env, FreeAlts(alts), BoundAlts(alts), env, js, ctx);
    InlineEval(m1, m2, calls, jumps, jumps', actuals, s, env, env', js, ctx, k);
    var o := Eval(m1, calls, jumps, actuals, s, env, js);
    if o.Ok? {
      InlineEvalAlts(m1, m2, calls, jumps, jumps', actuals, alts, o.value, env, env', js, ctx, k);
    }
  }

  lemma {:induction false} InlineCall(
    m1: Machine, m2: Machine, calls: nat, jumps: nat, jumps': nat, actuals: seq<Value>,
    e: Expr, env: Env, env': Env, js: Joins, ctx: Context, k: nat)
    requires e.Call?
    requires ExpandedMachine(m1, m2) && Expandable(e, ctx, k) && k <= jumps
    requires Static(e, env.Keys, ctx) && Ready(Free(e), Bound(e), env, js, ctx)
    requires Within(env, env')
    ensures Eval(m1, calls, jumps, actuals, e, env, js)
         == Eval(m2, calls, jumps', actuals, Inlined(e, ctx, k), env', NoJoin)
    decreases calls, k, e, 0
  {
    InlineEvalAll(m1, m2, calls, jumps, jumps', actuals, e.args, env, env', js, ctx, k);
    var os := EvalAll(m1, calls, jumps, actuals, e.args, env, js);
    if os.Oks? && calls > 0 {
      InlineRun(m1, m2, calls - 1, e.callee, os.values);
    }
  }

  lemma {:induction false} InlineIf(
    m1: Machine, m2: Machine, calls: nat, jumps: nat, jumps': nat, actuals: seq<Value>,
    e: Expr, env: Env, env': Env, js: Joins, ctx: Context, k: nat)
    requires e.If?
    requires ExpandedMachine(m1, m2) && Expandable(e, ctx, k) && k <= jumps
    requires Static(e, env.Keys, ctx) && Ready(Free(e), Bound(e), env, js, ctx)
    requires Within(env, env')
    ensures Eval(m1, calls, jumps, actuals, e, env, js)
         == Eval(m2, calls, jumps', actuals, Inlined(e, ctx, k), env', NoJoin)
    decreases calls, k, e, 0
  {
    Narrow(Free(e), Bound(e), env, Free(e.cond), Bound(e.cond), env, js, ctx);
    Narrow(Free(e), Bound(e), env, Free(e.yes), Bound(e.yes), env, js, ctx);
    Narrow(Free(e), Bound(e), env, Free(e.no), Bound(e.no), env, js, ctx);
    InlineEval(m1, m2, calls, jumps, jumps', actuals, e.cond, env, env', js, ctx, k);
    InlineEval(m1, m2, calls, jumps, jumps', actuals, e.yes, env, env', js, ctx, k);
    InlineEval(m1, m2, calls, jumps, jumps', actuals, e.no, env, env', js, ctx, k);
  }

  lemma {:induction false} InlineLet(
    m1: Machine, m2: Machine, calls: nat, jumps: nat, jumps': nat, actuals: seq<Value>,
    e: Expr, env: Env, env': Env, js: Joins, ctx: Context, k: nat)
    requires e.Let?
    requires ExpandedMachine(m1, m2) && Expandable(e, ctx, k) && k <= jumps
    requires Static(e, env.Keys, ctx) && Ready(Free(e), Bound(e), env, js, ctx)
    requires Within(env, env')
    ensures Eval(m1, calls, jumps, actuals, e, env, js)
         == Eval(m2, calls, jumps', actuals, Inlined(e, ctx, k), env', NoJoin)
    decreases calls, k, e, 0
  {
    var x, v, b := e.name, e.value, e.body;
    LetStatic(e, env.Keys, ctx);
    InlinedIsNotJp(v, ctx, k);
    Narrow(Free(e), Bound(e), env, Free(v), Bound(v), env, js, ctx);
    InlineEval(m1, m2, calls, jumps, jumps', actuals, v, env, env', js, ctx, k);
    var o := Eval(m1, calls, jumps, actuals, v, env, js);
    if o.Ok? {
      if v.Jp? {
        Declare(e, env, o.value, js, ctx);
      } else {
        Narrow(Free(e), Bound(e), env, Free(b), Bound(b), env[x := o.value], js, ctx);
      }
      InlineEval(m1, m2, calls, jumps, jumps', actuals, b, env[x := o.value], env'[x := o.value],
                 Visible(v, env, js), ctx, k);
    }
  }

  lemma {:induction false} InlineJump(
    m1: Machine, m2: Machine, calls: nat, jumps: nat, jumps': nat, actuals: seq<Value>,
    e: Expr, env: Env, env': Env, js: Joins, ctx: Context, k: nat)
    requires e.Jmp?
    requires ExpandedMachine(m1, m2) && Expandable(e, ctx, k) && k <= jumps
    requires Static(e, env.Keys, ctx) && Ready(Free(e), Bound(e), env, js, ctx)
    requires Within(env, env')
    ensures Eval(m1, calls, jumps, actuals, e, env, js)
         == Eval(m2, calls, jumps', actuals, Inlined(e, ctx, k), env', NoJoin)
    decreases calls, k, e, 0
  {
    var l, es := e.target, e.args;
    assert L(l) in Free(e);
    var s := Find(l, js);
    assert Entry(s, env, Bound(e), ctx);
    var body' := Inlined(s.cont, ctx, k - 1);
    Narrow(Free(e), Bound(e), env, FreeAll(es), BoundAll(es), env, js, ctx);
    InlineLets(m1, m2, calls, jumps, jumps', actuals, s.params, es, body', env, env', js, ctx, k);
    var os := EvalAll(m1, calls, jumps, actuals, es, env, js);
    if os.Oks? {
      var inner := Bind(s.params, os.values, s.env);
      EntryReady(s, env, Bound(e), os.values, ctx);
      BindWithin(s.params, os.values, s.env, env');
      InlineEval(m1, m2, calls, jumps - 1, jumps', actuals, s.cont, inner,
                 Bind(s.params, os.values, env'), s, ctx, k - 1);
    }
  }

  /** Where an entry's continuation runs, its own jumps are entries. */
  lemma EntryReady(s: Joins, env: Env, taken: set<Name>, vs: seq<Value>, ctx: Context)
    requires Entry(s, env, taken, ctx) && |vs| == |s.params|
    ensures var inner := Bind(s.params, vs, s.env);
      Static(s.cont, inner.Keys, ctx) && Ready(Free(s.cont), Bound(s.cont), inner, s, ctx)
  {
    var inner := Bind(s.params, vs, s.env);
    BindKeys(s.params, vs, s.env);
    assert inner.Keys == s.env.Keys + Names(s.params);
    forall n | L(n) in Free(s.cont)
      ensures Entry(Find(n, s), inner, Bound(s.cont), ctx)
    {
      assert Entry(Find(n, s.outer), s.env, Bound(s.cont) + Vars(s.params), ctx);
    }
  }

  lemma EvalLets(m: Machine, calls: nat, jumps: nat, actuals: seq<Value>,
                 ps: seq<string>, es: Exprs, body: Expr, env: Env)
    requires es.Cons? && |ps| == Len(es) && !es.head.Jp?
    ensures Eval(m, calls, jumps, actuals, Lets(ps, es, body), env, NoJoin)
         == var o := Eval(m, calls, jumps, actuals, es.head, env, NoJoin);
            if !o.Ok? then o
            else Eval(m, calls, jumps, actuals, Lets(ps[1..], es.tail, body), env[ps[0] := o.value], NoJoin)
  {
  }

  lemma ConsStatic(es: Exprs, vars: set<string>, ctx: Context)
    requires es.Cons? && StaticAll(es, vars, ctx)
    ensures Static(es.head, vars, ctx) && StaticAll(es.tail, vars, ctx)
  {
  }

  /** The let chain that replaces a jump evaluates the arguments in the caller's scope. */
  lemma {:induction false} InlineLets(
    m1: Machine, m2: Machine, calls: nat, jumps: nat, jumps': nat, actuals: seq<Value>,
    ps: seq<string>, es: Exprs, body': Expr, env: Env, env': Env, js: Joins, ctx: Context, k: nat)
    requires ExpandedMachine(m1, m2) && ExpandableAll(es, ctx, k) && k <= jumps
    requires StaticAll(es, env.Keys, ctx) && Ready(FreeAll(es), BoundAll(es), env, js, ctx)
    requires Within(env, env')
    requires |ps| == Len(es) && (forall p :: p in ps ==> p !in env)
    ensures Eval(m2, calls, jumps', actuals, Lets(ps, InlinedAll(es, ctx, k), body'), env', NoJoin)
         == match EvalAll(m1, calls, jumps, actuals, es, env, js)
            case Fails(o) => o
            case Oks(vs) => Eval(m2, calls, jumps', actuals, body', Bind(ps, vs, env'), NoJoin)
    decreases calls, k, es
  {
    match es
    case Nil =>
    case Cons(e, tail) =>
      ConsStatic(es, env.Keys, ctx);
      InlinedIsNotJp(e, ctx, k);
      EvalLets(m2, calls, jumps', actuals, ps, InlinedAll(es, ctx, k), body', env');
      Narrow(FreeAll(es), BoundAll(es), env, Free(e), Bound(e), env, js, ctx);
      Narrow(FreeAll(es), BoundAll(es), env, FreeAll(tail), BoundAll(tail), env, js, ctx);
      InlineEval(m1, m2, calls, jumps, jumps', actuals, e, env, env', js, ctx, k);
      var o := Eval(m1, calls, jumps, actuals, e, env, js);
      var e' := Inlined(e, ctx, k);
      if o.Ok? {
        InlineLets(m1, m2, calls, jumps, jumps', actuals, ps[1..], tail, body', env,
                   env'[ps[0] := o.value], js, ctx, k);
        var os := EvalAll(m1, calls, jumps, actuals, tail, env, js);
        if os.Oks? {
          assert ([o.value] + os.values)[1..] == os.values;
        }
      }
  }

  lemma {:induction false} InlinedIsNotJp(e: Expr, ctx: Context, k: nat)
    requires Expandable(e, ctx, k)
    ensures !Inlined(e, ctx, k).Jp?
    decreases k, e
  {
    if e.Jp? && e.target !in ctx.jumped {
      InlinedIsNotJp(e.cont, ctx, k);
    } else if e.Jmp? {
      InlinedIsNotJp(ctx.decls[e.target].cont, ctx, k - 1);
    }
  }

  lemma {:induction false} InlineEvalAll(
    m1: Machine, m2: Machine, calls: nat, jumps: nat, jumps': nat, actuals: seq<Value>,
    es: Exprs, env: Env, env': Env, js: Joins, ctx: Context, k: nat)
    requires ExpandedMachine(m1, m2) && ExpandableAll(es, ctx, k) && k <= jumps
    requires StaticAll(es, env.Keys, ctx) && Ready(FreeAll(es), BoundAll(es), env, js, ctx)
    requires Within(env, env')
    ensures EvalAll(m1, calls, jumps, actuals, es, env, js)
         == EvalAll(m2, calls, jumps', actuals, InlinedAll(es, ctx, k), env', NoJoin)
    decreases calls, k, es
  {
    match es
    case Nil =>
    case Cons(e, tail) =>
      Narrow(FreeAll(es), BoundAll(es), env, Free(e), Bound(e), env, js, ctx);
      Narrow(FreeAll(es), BoundAll(es), env, FreeAll(tail), BoundAll(tail), env, js, ctx);
      InlineEval(m1, m2, calls, jumps, jumps', actuals, e, env, env', js, ctx, k);
      InlineEvalAll(m1, m2, calls, jumps, jumps', actuals, tail, env, env', js, ctx, k);
  }

  lemma {:induction false} InlineEvalAlts(
    m1: Machine, m2: Machine, calls: nat, jumps: nat, jumps': nat, actuals: seq<Value>,
    alts: Alts, v: Value, env: Env, env': Env, js: Joins, ctx: Context, k: nat)
    requires ExpandedMachine(m1, m2) && ExpandableAlts(alts, ctx, k) && k <= jumps
    requires StaticAlts(alts, env.Keys, ctx) && Ready(FreeAlts(alts), BoundAlts(alts), env, js, ctx)
    requires Within(env, env')
    ensures EvalAlts(m1, calls, jumps, actuals, alts, v, env, js)
         == EvalAlts(m2, calls, jumps', actuals, InlinedAlts(alts, ctx, k), v, env', NoJoin)
    decreases calls, k, alts
  {
    match alts
    case NoMore =>
    case Default(b) =>
      InlineEval(m1, m2, calls, jumps, jumps', actuals, b, env, env', js, ctx, k);
    case Alt(c, bs, b, rest) =>
      var fs := Fields(c, |bs|, v);
      if fs != [] {
        BindKeys(bs, fs[0], env);
        BindWithin(bs, fs[0], env, env');
        Narrow(FreeAlts(alts), BoundAlts(alts), env, Free(b), Bound(b), Bind(bs, fs[0], env), js, ctx);
        InlineEval(m1, m2, calls, jumps, jumps', actuals, b, Bind(bs, fs[0], env),
                   Bind(bs, fs[0], env'), js, ctx, k);
      } else {
        Narrow(FreeAlts(alts), BoundAlts(alts), env, FreeAlts(rest), BoundAlts(rest), env, js, ctx);
        InlineEvalAlts(m1, m2, calls, jumps, jumps', actuals, rest, v, env, env', js, ctx, k);
      }
  }

  lemma {:induction false} InlineRun(m1: Machine, m2: Machine, calls: nat, f: string, vs: seq<Value>)
    requires ExpandedMachine(m1, m2)
    ensures Run(m1, calls, f, vs) == Run(m2, calls, f, vs)
    decreases calls, MAX_DEPTH + 1
  {
    if f in m1.defs && |m1.defs[f].params| == |vs| {
      var d := m1.defs[f];
      var env := Bind(d.params, vs, map[]);
      BindKeys(d.params, vs, map[]);
      assert env.Keys == Names(d.params);
      InlineEval(m1, m2, calls, m1.jumps, m2.jumps, vs, d.body, env, env, NoJoin,
                 Collect(d.body), MAX_DEPTH);
    }
  }
}
