/** The chain each definition goes through before rendering: normalise, expand joins,
    normalise again, lower self tail calls to a loop.
 */
module Pipeline {
  import opened Ir
  import opened Semantics
  import JoinPass
  import JoinExpansion
  import JoinFactoring
  import DeadJoins
  import JoinSource
  import Builder
  import Naming
  import NamingMeaning
  import TailCalls

  /** The stages of one definition. */
  datatype Stages = Stages(source: Definition, named: Definition, expanded: Definition, final: Definition)

  ghost predicate Staged(s: Stages, lx: Naming.Lexicon) {
    && Naming.Normalizes(s.source, s.named, lx) && Naming.Hygienic(s.named, lx)
    && s.expanded == s.named.(body := s.expanded.body)
    && JoinPass.PassResult(s.named.body, s.expanded.body)
    && Naming.Normalizes(s.expanded, s.final, lx) && Naming.Hygienic(s.final, lx)
  }

  // ---- the second normalisation cannot fail ----

  lemma {:induction false} UniqueGrouped(e: Expr)
    requires Unique(e)
    ensures Naming.Grouped(e)
    ensures forall l :: l in JoinExpansion.DeclsOf(e) ==> Naming.Grouped(JoinExpansion.DeclsOf(e)[l].cont)
  {
    match e
    case Lit(_) =>
    case Var(_) =>
    case Param(_) =>
    case Unreachable =>
    case Prim(_, es) => UniqueGroupedAll(es);
    case If(c, t, f) =>
      UniqueGrouped(c);
      UniqueGrouped(t);
      UniqueGrouped(f);
    case Let(_, v, b) =>
      UniqueGrouped(v);
      UniqueGrouped(b);
    case Match(s, alts) =>
      UniqueGrouped(s);
      UniqueGroupedAlts(alts);
    case Call(_, es) => UniqueGroupedAll(es);
    case Jp(_, _, c) => UniqueGrouped(c);
    case Jmp(_, es) => UniqueGroupedAll(es);
  }

  lemma {:induction false} UniqueGroupedAll(es: Exprs)
    requires UniqueAll(es)
    ensures Naming.GroupedAll(es)
    ensures forall l :: l in JoinExpansion.DeclsOfAll(es) ==> Naming.Grouped(JoinExpansion.DeclsOfAll(es)[l].cont)
  {
    match es
    case Nil =>
    case Cons(e, tail) =>
      UniqueGrouped(e);
      UniqueGroupedAll(tail);
  }

  lemma {:induction false} UniqueGroupedAlts(alts: Alts)
    requires UniqueAlts(alts)
    ensures Naming.GroupedAlts(alts)
    ensures forall l :: l in JoinExpansion.DeclsOfAlts(alts) ==> Naming.Grouped(JoinExpansion.DeclsOfAlts(alts)[l].cont)
  {
    match alts
    case NoMore =>
    case Default(b) => UniqueGrouped(b);
    case Alt(_, _, b, rest) =>
      UniqueGrouped(b);
      UniqueGroupedAlts(rest);
  }

  ghost predicate GroupedContext(ctx: JoinExpansion.Context) {
    forall l :: l in ctx.decls ==> Naming.Grouped(ctx.decls[l].cont)
  }

  lemma {:induction false} LetsGrouped(ps: seq<string>, es: Exprs, body: Expr)
    requires |ps| == Len(es) && Naming.GroupedAll(es) && Naming.Grouped(body)
    ensures Naming.Grouped(JoinExpansion.Lets(ps, es, body))
    decreases es
  {
    match es
    case Nil =>
    case Cons(_, tail) => LetsGrouped(ps[1..], tail, body);
  }

  /** Expansion copies binders but never puts two into one group. */
  lemma {:induction false} InlinedGrouped(e: Expr, ctx: JoinExpansion.Context, k: nat)
    requires Naming.Grouped(e) && GroupedContext(ctx) && JoinExpansion.Expandable(e, ctx, k)
    ensures Naming.Grouped(JoinExpansion.Inlined(e, ctx, k))
    decreases k, e
  {
    match e
    case Lit(_) =>
    case Var(_) =>
    case Param(_) =>
    case Unreachable =>
    case Prim(_, es) => InlinedGroupedAll(es, ctx, k);
    case If(c, t, f) =>
      InlinedGrouped(c, ctx, k);
      InlinedGrouped(t, ctx, k);
      InlinedGrouped(f, ctx, k);
    case Let(_, v, b) =>
      InlinedGrouped(v, ctx, k);
      InlinedGrouped(b, ctx, k);
    case Match(s, alts) =>
      InlinedGrouped(s, ctx, k);
      InlinedGroupedAlts(alts, ctx, k);
    case Call(_, es) => InlinedGroupedAll(es, ctx, k);
    case Jp(l, _, c) =>
      if l !in ctx.jumped {
        InlinedGrouped(c, ctx, k);
      }
    case Jmp(l, es) =>
      InlinedGroupedAll(es, ctx, k);
      InlinedGrouped(ctx.decls[l].cont, ctx, k - 1);
      LetsGrouped(ctx.decls[l].params, JoinExpansion.InlinedAll(es, ctx, k),
                  JoinExpansion.Inlined(ctx.decls[l].cont, ctx, k - 1));
  }

  lemma {:induction false} InlinedGroupedAll(es: Exprs, ctx: JoinExpansion.Context, k: nat)
    requires Naming.GroupedAll(es) && GroupedContext(ctx) && JoinExpansion.ExpandableAll(es, ctx, k)
    ensures Naming.GroupedAll(JoinExpansion.InlinedAll(es, ctx, k))
    decreases k, es
  {
    match es
    case Nil =>
    case Cons(e, tail) =>
      InlinedGrouped(e, ctx, k);
      InlinedGroupedAll(tail, ctx, k);
  }

  lemma {:induction false} InlinedGroupedAlts(alts: Alts, ctx: JoinExpansion.Context, k: nat)
    requires Naming.GroupedAlts(alts) && GroupedContext(ctx) && JoinExpansion.ExpandableAlts(alts, ctx, k)
    ensures Naming.GroupedAlts(JoinExpansion.InlinedAlts(alts, ctx, k))
    decreases k, alts
  {
    match alts
    case NoMore =>
    case Default(b) => InlinedGrouped(b, ctx, k);
    case Alt(_, _, b, rest) =>
      InlinedGrouped(b, ctx, k);
      InlinedGroupedAlts(rest, ctx, k);
  }

  /** What the pass returns for a normalised body can be normalised again. */
  lemma ExpandedGrouped(body: Expr, body': Expr)
    requires Unique(body) && JoinPass.ExpandedBody(body, body')
    ensures Naming.Grouped(body')
  {
    var on: bool :| JoinPass.ExpandedFrom(JoinFactoring.Image(body, on, {}, true), body');
    var x := JoinFactoring.Image(body, on, {}, true);
    if on {
      JoinFactoring.FactorNames(body, {}, true);
    }
    UniqueGrouped(x);
    InlinedGrouped(x, JoinExpansion.Collect(x), JoinExpansion.MAX_DEPTH);
  }

  /** What the front of the code generator does to one definition.  It fails only on a
      duplicate in one binding group or on joins that are refused; the second normalisation
      never does. */
  method Lower(d: Definition, lx: Naming.Lexicon) returns (ok: bool, s: Stages)
    requires Naming.Sane(lx)
    ensures ok ==> s.source == d && Staged(s, lx)
    ensures ok ==> Distinct(d.params) && Naming.Grouped(d.body)
    ensures !ok ==> !Distinct(d.params) || !Naming.Grouped(d.body) || JoinPass.Refusable(s.named.body)
  {
    s := Stages(d, d, d, d);
    var first := Naming.NormalizeTracking(d, lx, {});
    if first.IsFailure() { return false, s; }
    var named := first.value.0;
    NamingMeaning.HygienicIsUnique(named, lx);
    UniqueGrouped(named.body);
    s := Stages(d, named, named, named);
    var expansion := JoinPass.Expand(named);
    if expansion.IsFailure() { return false, s; }
    var expanded := if expansion.value.Some? then expansion.value.value else named;
    if expansion.value.Some? {
      ExpandedGrouped(named.body, expanded.body);
    }
    var joinParameters := set l, x | l in JoinExpansion.Collect(named.body).decls
                                     && x in JoinExpansion.Collect(named.body).decls[l].params :: x;
    var second := Naming.NormalizeTracking(expanded, lx, joinParameters);
    return true, Stages(d, named, expanded, second.value.0);
  }

  ghost predicate AllStaged(m: Machine, stages: map<string, Stages>, lx: Naming.Lexicon) {
    && stages.Keys == m.defs.Keys
    && (forall f :: f in m.defs ==> stages[f].source == m.defs[f] && Staged(stages[f], lx))
  }

  function Named(m: Machine, stages: map<string, Stages>): Machine {
    m.(defs := map f | f in stages :: stages[f].named)
  }

  function Expanded(m: Machine, stages: map<string, Stages>): Machine {
    m.(defs := map f | f in stages :: stages[f].expanded)
  }

  function Final(m: Machine, stages: map<string, Stages>): Machine {
    m.(defs := map f | f in stages :: stages[f].final)
  }

  lemma FirstNaming(m: Machine, stages: map<string, Stages>, lx: Naming.Lexicon,
                    calls: nat, f: string, vs: seq<Value>)
    requires AllStaged(m, stages, lx)
    ensures Run(m, calls, f, vs) == Run(Named(m, stages), calls, f, vs)
  {
    assert NamingMeaning.NormalizedMachine(m, Named(m, stages), lx);
    NamingMeaning.NormalizationPreservesRuns(m, Named(m, stages), lx, calls, f, vs);
  }

  /** What a caller checks of the joins: `strict` asks dead ones to compute nothing, else
      nothing that can fail. */
  predicate TameSource(d: Definition, strict: bool) {
    JoinSource.Meek(d.body, |d.params|, strict)
  }

  ghost predicate AllTame(m: Machine, strict: bool) {
    forall g :: g in m.defs ==> TameSource(m.defs[g], strict)
  }

  lemma TameNamed(s: Stages, lx: Naming.Lexicon, strict: bool)
    requires Staged(s, lx) && NamingMeaning.Closed(s.source) && TameSource(s.source, strict)
    ensures DeadJoins.TameBody(s.named.body, strict)
  {
    JoinSource.SourceTame(s.source, s.named, lx, strict);
  }

  ghost predicate AllClosed(m: Machine) {
    forall g :: g in m.defs ==> NamingMeaning.Closed(m.defs[g])
  }

  lemma Expansion(m: Machine, stages: map<string, Stages>, lx: Naming.Lexicon,
                  calls: nat, f: string, vs: seq<Value>, strict: bool)
    requires AllStaged(m, stages, lx) && m.jumps >= JoinExpansion.MAX_DEPTH
    requires AllClosed(m) && AllTame(m, strict)
    ensures DeadJoins.Same(strict, Run(Named(m, stages), calls, f, vs), Run(Expanded(m, stages), calls, f, vs))
  {
    var m1, m2 := Named(m, stages), Expanded(m, stages);
    forall g | g in m1.defs
      ensures JoinPass.Lexical(m1.defs[g].params, m1.defs[g].body)
      ensures DeadJoins.TameBody(m1.defs[g].body, strict)
    {
      NamedIsLexical(stages[g], lx);
      TameNamed(stages[g], lx, strict);
    }
    StagesPassed(m, stages, lx);
    DeadJoins.ExpansionRefinesRuns(m1, m2, calls, f, vs, strict);
  }

  lemma StagesPassed(m: Machine, stages: map<string, Stages>, lx: Naming.Lexicon)
    requires AllStaged(m, stages, lx) && m.jumps >= JoinExpansion.MAX_DEPTH
    ensures JoinPass.PassedMachine(Named(m, stages), Expanded(m, stages))
  {}

  lemma NamedIsLexical(s: Stages, lx: Naming.Lexicon)
    requires Staged(s, lx) && NamingMeaning.Closed(s.source)
    ensures JoinPass.Lexical(s.named.params, s.named.body)
  {
    NamingMeaning.NormalizedIsClosed(s.source, s.named, lx);
    NamingMeaning.HygienicIsUnique(s.named, lx);
  }

  lemma SecondNaming(m: Machine, stages: map<string, Stages>, lx: Naming.Lexicon,
                     calls: nat, f: string, vs: seq<Value>)
    requires AllStaged(m, stages, lx)
    ensures Run(Expanded(m, stages), calls, f, vs) == Run(Final(m, stages), calls, f, vs)
  {
    var m2, m3 := Expanded(m, stages), Final(m, stages);
    assert NamingMeaning.NormalizedMachine(m2, m3, lx);
    NamingMeaning.NormalizationPreservesRuns(m2, m3, lx, calls, f, vs);
  }

  /** Closed source definitions run the same after every stage when their dead joins are
      inert; when dead joins are merely infallible, the same or code that does not compile. */
  lemma PipelineRefinesRuns(m: Machine, stages: map<string, Stages>, lx: Naming.Lexicon,
                            calls: nat, f: string, vs: seq<Value>, strict: bool)
    requires AllStaged(m, stages, lx) && m.jumps >= JoinExpansion.MAX_DEPTH
    requires AllClosed(m) && AllTame(m, strict)
    ensures DeadJoins.Same(strict, Run(m, calls, f, vs), Run(Final(m, stages), calls, f, vs))
  {
    FirstNaming(m, stages, lx, calls, f, vs);
    Expansion(m, stages, lx, calls, f, vs, strict);
    SecondNaming(m, stages, lx, calls, f, vs);
  }

  lemma ExpandedIsJoinFree(s: Stages, lx: Naming.Lexicon)
    requires Staged(s, lx) && NamingMeaning.Closed(s.source)
    ensures JoinFree(s.expanded.body)
  {
    if JoinExpansion.DeclsOf(s.named.body) == map[] {
      NamingMeaning.NormalizedIsClosed(s.source, s.named, lx);
      var _ := JoinPass.JoinOrigin(s.named.body);
    } else {
      var on: bool :| JoinPass.ExpandedFrom(JoinFactoring.Image(s.named.body, on, {}, true), s.expanded.body);
      var x := JoinFactoring.Image(s.named.body, on, {}, true);
      JoinPass.InlinedJoinFree(x, JoinExpansion.Collect(x), JoinExpansion.MAX_DEPTH);
    }
  }

  lemma FinalIsJoinFree(s: Stages, lx: Naming.Lexicon)
    requires Staged(s, lx) && NamingMeaning.Closed(s.source)
    ensures JoinFree(s.final.body)
  {
    ExpandedIsJoinFree(s, lx);
    var d, d' := s.expanded, s.final;
    NamingMeaning.RenamedJoinFree(d.body, d'.body, Bind(d.params, d'.params, map[]), map[], d'.params,
                                  Naming.RulesOf(d, lx));
  }

  /** The loop emitted for a planned definition gives the outcome of the source definition. */
  method RunLowered(m: Machine, stages: map<string, Stages>, lx: Naming.Lexicon,
                    p: TailCalls.Plan, calls: nat, vs: seq<Value>, ghost strict: bool) returns (o: Outcome)
    requires AllStaged(m, stages, lx) && m.jumps >= JoinExpansion.MAX_DEPTH
    requires AllClosed(m) && AllTame(m, strict)
    requires p.Valid() && p.name in m.defs && p.params == stages[p.name].final.params && |vs| == |p.params|
    requires TailCalls.Lowers(stages[p.name].final.body, true, p)
    ensures DeadJoins.Same(strict, Run(m, calls, p.name, vs), o)
  {
    FinalIsJoinFree(stages[p.name], lx);
    NamingMeaning.HygienicIsUnique(stages[p.name].final, lx);
    o := TailCalls.RunLoop(Final(m, stages), p, calls, vs);
    PipelineRefinesRuns(m, stages, lx, calls, p.name, vs, strict);
  }

  // ---- what reaches builder mode ----

  /** Every stage of a closed definition is closed. */
  lemma FinalIsClosed(s: Stages, lx: Naming.Lexicon, strict: bool)
    requires Staged(s, lx) && NamingMeaning.Closed(s.source) && TameSource(s.source, strict)
    ensures NamingMeaning.Closed(s.final) && JoinFree(s.final.body)
  {
    NamedIsLexical(s, lx);
    TameNamed(s, lx, strict);
    DeadJoins.ExpandedClosed(s.named.params, s.named.body, s.expanded.body, strict);
    JoinPass.NoJumps(s.expanded.body);
    NamingMeaning.NormalizedIsClosed(s.expanded, s.final, lx);
    FinalIsJoinFree(s, lx);
  }

  /** The builder's preconditions hold of a staged definition that it accepts. */
  lemma FinalIsBuilder(s: Stages, lx: Naming.Lexicon, cx: Builder.Context, strict: bool)
    requires Staged(s, lx) && NamingMeaning.Closed(s.source) && TameSource(s.source, strict)
    requires Builder.Accepted(cx, s.final.body, [], Builder.ListParams(s.final))
    ensures Builder.BuilderDefinition(cx, s.final, false)
  {
    FinalIsClosed(s, lx, strict);
    FinalIsOver(s.final, lx);
  }

  lemma FinalIsOver(d: Definition, lx: Naming.Lexicon)
    requires Naming.Hygienic(d, lx) && NamingMeaning.Closed(d)
    ensures Unique(d.body) && Bound(d.body) !! Vars(d.params) && Free(d.body) <= Vars(d.params)
  {
    NamingMeaning.HygienicIsUnique(d, lx);
    forall n | n in Free(d.body)
      ensures n in Vars(d.params)
    {
      match n
      case V(_) =>
      case L(_) =>
    }
  }

  lemma FinalIsBuilderModule(m: Machine, stages: map<string, Stages>, lx: Naming.Lexicon, cx: Builder.Context,
                             strict: bool)
    requires AllStaged(m, stages, lx) && AllClosed(m) && AllTame(m, strict) && cx.m == Final(m, stages)
    requires forall g :: g in cx.buffers && g in stages ==>
               Builder.Accepted(cx, stages[g].final.body, [], Builder.ListParams(stages[g].final))
    ensures Builder.BuilderModule(cx, false)
  {
    forall g | g in cx.buffers && g in cx.m.defs
      ensures Builder.BuilderDefinition(cx, cx.m.defs[g], false)
    {
      FinalIsBuilder(stages[g], lx, cx, strict);
    }
  }

  /** The exported list function of the final module delivers the list of the source module. */
  method FillLowered(m: Machine, stages: map<string, Stages>, lx: Naming.Lexicon, cx: Builder.Context,
                     calls: nat, f: string, vs: seq<Value>, out: array<Value>, ghost strict: bool)
    returns (r: Builder.Reply)
    requires AllStaged(m, stages, lx) && m.jumps >= JoinExpansion.MAX_DEPTH
    requires AllClosed(m) && AllTame(m, strict)
    requires cx.m == Final(m, stages) && f in cx.buffers
    requires forall g :: g in cx.buffers && g in stages ==>
               Builder.Accepted(cx, stages[g].final.body, [], Builder.ListParams(stages[g].final))
    modifies out
    ensures strict || Run(cx.m, calls, f, vs) != Stuck ==>
      Builder.Delivered(Run(m, calls, f, vs), r, old(out[..]), out[..])
  {
    FinalIsBuilderModule(m, stages, lx, cx, strict);
    r := Builder.FillBuffer(cx, calls, f, vs, out);
    PipelineRefinesRuns(m, stages, lx, calls, f, vs, strict);
  }
}
