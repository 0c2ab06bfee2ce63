/** The memoised cost guard in front of join expansion (`joins.rs`, `cost`).

    The guard never builds the expanded tree.  `Table.Measure` is proved to report the
    exact size and jump nesting of that tree, and to refuse exactly when a limit is passed.
 */
module JoinCost {
  import opened Ir
  import opened JoinExpansion
  import opened Wrappers

  datatype Cost = Cost(nodes: nat, depth: nat)

  datatype Error = JoinExpansionLimit | UnsupportedJoinPoint

  function Plus(a: Cost, b: Cost): Result<Cost, Error> {
    Require(Cost(a.nodes + b.nodes, Max(a.depth, b.depth)), MAX_NODES, MAX_DEPTH)
  }

  function Require(c: Cost, nodes: nat, depth: nat): Result<Cost, Error> {
    if c.nodes > nodes || c.depth > depth then Failure(JoinExpansionLimit) else Success(c)
  }

  // ---- jump nesting ----

  function Nest(e: Expr, ctx: Context, k: nat): nat
    requires Expandable(e, ctx, k)
    decreases k, e
  {
    match e
    case Lit(_) => 0
    case Var(_) => 0
    case Param(_) => 0
    case Prim(_, es) => NestAll(es, ctx, k)
    case If(c, t, f) => Max(Nest(c, ctx, k), Max(Nest(t, ctx, k), Nest(f, ctx, k)))
    case Let(_, v, b) => Max(Nest(v, ctx, k), Nest(b, ctx, k))
    case Match(s, alts) => Max(Nest(s, ctx, k), NestAlts(alts, ctx, k))
    case Call(_, es) => NestAll(es, ctx, k)
    case Jp(l, _, c) => if l in ctx.jumped then 0 else Nest(c, ctx, k)
    case Jmp(l, es) => Max(1 + Nest(ctx.decls[l].cont, ctx, k - 1), NestAll(es, ctx, k))
    case Unreachable => 0
  }

  function NestAll(es: Exprs, ctx: Context, k: nat): nat
    requires ExpandableAll(es, ctx, k)
    decreases k, es
  {
    match es
    case Nil => 0
    case Cons(e, tail) => Max(Nest(e, ctx, k), NestAll(tail, ctx, k))
  }

  function NestAlts(alts: Alts, ctx: Context, k: nat): nat
    requires ExpandableAlts(alts, ctx, k)
    decreases k, alts
  {
    match alts
    case NoMore => 0
    case Default(b) => Nest(b, ctx, k)
    case Alt(_, _, b, rest) => Max(Nest(b, ctx, k), NestAlts(rest, ctx, k))
  }

  /** A larger budget changes nothing, and the nesting is a budget that suffices. */
  lemma {:induction false} Stable(e: Expr, ctx: Context, k: nat, k': nat)
    requires Expandable(e, ctx, k)
    ensures Nest(e, ctx, k) <= k
    ensures Nest(e, ctx, k) <= k' ==>
      && Expandable(e, ctx, k')
      && Inlined(e, ctx, k') == Inlined(e, ctx, k)
      && Nest(e, ctx, k') == Nest(e, ctx, k)
    decreases k, e, 1
  {
    match e
    case Lit(_) =>
    case Var(_) =>
    case Param(_) =>
    case Unreachable =>
    case Prim(_, es) => StableAll(es, ctx, k, k');
    case If(_, _, _) => StableIf(e, ctx, k, k');
    case Let(_, v, b) =>
      Stable(v, ctx, k, k');
      Stable(b, ctx, k, k');
    case Match(s, alts) =>
      Stable(s, ctx, k, k');
      StableAlts(alts, ctx, k, k');
    case Call(_, es) => StableAll(es, ctx, k, k');
    case Jp(l, _, c) => if l !in ctx.jumped { Stable(c, ctx, k, k'); }
    case Jmp(_, _) => StableJump(e, ctx, k, k');
  }

  lemma {:induction false} StableIf(e: Expr, ctx: Context, k: nat, k': nat)
    requires e.If? && Expandable(e, ctx, k)
    ensures Nest(e, ctx, k) <= k
    ensures Nest(e, ctx, k) <= k' ==>
      && Expandable(e, ctx, k')
      && Inlined(e, ctx, k') == Inlined(e, ctx, k)
      && Nest(e, ctx, k') == Nest(e, ctx, k)
    decreases k, e, 0
  {
    Stable(e.cond, ctx, k, k');
    Stable(e.yes, ctx, k, k');
    Stable(e.no, ctx, k, k');
  }

  lemma {:induction false} StableJump(e: Expr, ctx: Context, k: nat, k': nat)
    requires e.Jmp? && Expandable(e, ctx, k)
    ensures Nest(e, ctx, k) <= k
    ensures Nest(e, ctx, k) <= k' ==>
      && Expandable(e, ctx, k')
      && Inlined(e, ctx, k') == Inlined(e, ctx, k)
      && Nest(e, ctx, k') == Nest(e, ctx, k)
    decreases k, e, 0
  {
    StableAll(e.args, ctx, k, k');
    Stable(ctx.decls[e.target].cont, ctx, k - 1, if k' == 0 then 0 else k' - 1);
  }

  lemma {:induction false} StableAll(es: Exprs, ctx: Context, k: nat, k': nat)
    requires ExpandableAll(es, ctx, k)
    ensures NestAll(es, ctx, k) <= k
    ensures NestAll(es, ctx, k) <= k' ==>
      && ExpandableAll(es, ctx, k')
      && InlinedAll(es, ctx, k') == InlinedAll(es, ctx, k)
      && NestAll(es, ctx, k') == NestAll(es, ctx, k)
    decreases k, es
  {
    match es
    case Nil =>
    case Cons(e, tail) =>
      Stable(e, ctx, k, k');
      StableAll(tail, ctx, k, k');
  }

  lemma {:induction false} StableAlts(alts: Alts, ctx: Context, k: nat, k': nat)
    requires ExpandableAlts(alts, ctx, k)
    ensures NestAlts(alts, ctx, k) <= k
    ensures NestAlts(alts, ctx, k) <= k' ==>
      && ExpandableAlts(alts, ctx, k')
      && InlinedAlts(alts, ctx, k') == InlinedAlts(alts, ctx, k)
      && NestAlts(alts, ctx, k') == NestAlts(alts, ctx, k)
    decreases k, alts
  {
    match alts
    case NoMore =>
    case Default(b) => Stable(b, ctx, k, k');
    case Alt(_, _, b, rest) =>
      Stable(b, ctx, k, k');
      StableAlts(rest, ctx, k, k');
  }

  lemma {:induction false} LetsSize(ps: seq<string>, es: Exprs, body: Expr)
    requires |ps| == Len(es)
    ensures Size(Lets(ps, es, body)) == |ps| + SizeAll(es) + Size(body)
  {
    match es
    case Nil =>
    case Cons(e, tail) => LetsSize(ps[1..], tail, body);
  }

  // ---- jumps checked before costing ----

  predicate ValidJumps(e: Expr, ctx: Context) {
    && (e.Jmp? ==> e.target in ctx.decls && |ctx.decls[e.target].params| == Len(e.args))
    && (forall c :: c in Children(e) ==> ValidJumps(c, ctx))
  }

  predicate ValidContext(ctx: Context) {
    forall l :: l in ctx.decls ==> ValidJumps(ctx.decls[l].cont, ctx)
  }

  // ---- summing over children ----

  predicate Each(cs: seq<Expr>, ctx: Context, k: nat) {
    forall c :: c in cs ==> Expandable(c, ctx, k)
  }

  function Sum(cs: seq<Expr>, ctx: Context, k: nat): nat
    requires Each(cs, ctx, k)
  {
    if cs == [] then 0 else Size(Inlined(cs[0], ctx, k)) + Sum(cs[1..], ctx, k)
  }

  function Deepest(cs: seq<Expr>, ctx: Context, k: nat): nat
    requires Each(cs, ctx, k)
  {
    if cs == [] then 0 else Max(Nest(cs[0], ctx, k), Deepest(cs[1..], ctx, k))
  }

  lemma SumCons(c: Expr, cs: seq<Expr>, ctx: Context, k: nat)
    requires Expandable(c, ctx, k) && Each(cs, ctx, k)
    ensures Each([c] + cs, ctx, k)
    ensures Sum([c] + cs, ctx, k) == Size(Inlined(c, ctx, k)) + Sum(cs, ctx, k)
    ensures Deepest([c] + cs, ctx, k) == Max(Nest(c, ctx, k), Deepest(cs, ctx, k))
  {
    assert ([c] + cs)[1..] == cs;
  }

  lemma TailCost(c: Expr, cs: seq<Expr>, ctx: Context, k: nat)
    ensures Each([c] + cs, ctx, k) <==> Expandable(c, ctx, k) && Each(cs, ctx, k)
    ensures Each([c] + cs, ctx, k) ==>
      && Sum([c] + cs, ctx, k) == Size(Inlined(c, ctx, k)) + Sum(cs, ctx, k)
      && Deepest([c] + cs, ctx, k) == Max(Nest(c, ctx, k), Deepest(cs, ctx, k))
  {
    assert ([c] + cs)[0] == c && forall d :: d in [c] + cs <==> d == c || d in cs;
    if Expandable(c, ctx, k) && Each(cs, ctx, k) {
      SumCons(c, cs, ctx, k);
    }
  }

  lemma PairCost(a: Expr, b: Expr, ctx: Context, k: nat)
    ensures Each([a, b], ctx, k) <==> Expandable(a, ctx, k) && Expandable(b, ctx, k)
    ensures Each([a, b], ctx, k) ==>
      && Sum([a, b], ctx, k) == Size(Inlined(a, ctx, k)) + Size(Inlined(b, ctx, k))
      && Deepest([a, b], ctx, k) == Max(Nest(a, ctx, k), Nest(b, ctx, k))
  {
    TailCost(b, [], ctx, k);
    TailCost(a, [b], ctx, k);
    assert [b] + [] == [b] && [a] + [b] == [a, b];
  }

  lemma {:induction false} ListedCost(es: Exprs, ctx: Context, k: nat)
    ensures Each(Listed(es), ctx, k) <==> ExpandableAll(es, ctx, k)
    ensures ExpandableAll(es, ctx, k) ==>
      && Sum(Listed(es), ctx, k) == SizeAll(InlinedAll(es, ctx, k))
      && Deepest(Listed(es), ctx, k) == NestAll(es, ctx, k)
  {
    match es
    case Nil =>
    case Cons(e, tail) =>
      ListedCost(tail, ctx, k);
      assert Listed(es)[1..] == Listed(tail);
      assert forall c :: c in Listed(es) <==> c == e || c in Listed(tail);
  }

  lemma {:induction false} BodiesCost(alts: Alts, ctx: Context, k: nat)
    ensures Each(Bodies(alts), ctx, k) <==> ExpandableAlts(alts, ctx, k)
    ensures ExpandableAlts(alts, ctx, k) ==>
      && Sum(Bodies(alts), ctx, k) == SizeAlts(InlinedAlts(alts, ctx, k))
      && Deepest(Bodies(alts), ctx, k) == NestAlts(alts, ctx, k)
  {
    match alts
    case NoMore =>
    case Default(b) =>
      assert Bodies(alts)[1..] == [];
    case Alt(_, _, b, rest) =>
      BodiesCost(rest, ctx, k);
      assert Bodies(alts)[1..] == Bodies(rest);
      assert forall c :: c in Bodies(alts) <==> c == b || c in Bodies(rest);
  }

  /** Away from joins, the cost of a node is one more than the cost of its children. */
  lemma ChildrenCost(e: Expr, ctx: Context, k: nat)
    requires !e.Jp? && !e.Jmp?
    ensures Each(Children(e), ctx, k) <==> Expandable(e, ctx, k)
    ensures Expandable(e, ctx, k) ==>
      && Size(Inlined(e, ctx, k)) == 1 + Sum(Children(e), ctx, k)
      && Nest(e, ctx, k) == Deepest(Children(e), ctx, k)
  {
    match e
    case Lit(_) =>
    case Var(_) =>
    case Param(_) =>
    case Unreachable =>
    case Prim(_, es) => ListedCost(es, ctx, k);
    case Call(_, es) => ListedCost(es, ctx, k);
    case If(c, t, f) =>
      PairCost(t, f, ctx, k);
      TailCost(c, [t, f], ctx, k);
      assert Children(e) == [c] + [t, f];
    case Let(_, v, b) =>
      PairCost(v, b, ctx, k);
    case Match(s, alts) =>
      BodiesCost(alts, ctx, k);
      TailCost(s, Bodies(alts), ctx, k);
  }

  lemma {:induction false} StableEach(cs: seq<Expr>, ctx: Context, k: nat, k': nat)
    requires Each(cs, ctx, k) && k <= k'
    ensures Each(cs, ctx, k')
    ensures Sum(cs, ctx, k') == Sum(cs, ctx, k)
  {
    forall c | c in cs
      ensures Expandable(c, ctx, k')
    {
      Stable(c, ctx, k, k');
    }
    if cs != [] {
      Stable(cs[0], ctx, k, k');
      StableEach(cs[1..], ctx, k, k');
    }
  }

  // ---- the guard ----

  ghost predicate Exact(e: Expr, ctx: Context, c: Cost) {
    && c.nodes <= MAX_NODES
    && c.depth <= MAX_DEPTH
    && Expandable(e, ctx, MAX_DEPTH)
    && c.nodes == Size(Inlined(e, ctx, MAX_DEPTH))
    && c.depth == Nest(e, ctx, MAX_DEPTH)
  }

  /** An expansion within `budget` nested jumps would have more than `MAX_NODES` nodes. */
  ghost predicate Exceeds(e: Expr, ctx: Context, budget: int) {
    budget >= 0 && Expandable(e, ctx, budget) ==> Size(Inlined(e, ctx, budget)) > MAX_NODES
  }

  ghost predicate Never(e: Expr, ctx: Context) {
    forall k: nat :: !Expandable(e, ctx, k)
  }

  lemma {:induction false} NoDescent(e: Expr, ctx: Context, k: nat)
    requires forall k: nat :: Expandable(e, ctx, k) ==> k > 0 && Expandable(e, ctx, k - 1)
    ensures !Expandable(e, ctx, k)
  {
    if Expandable(e, ctx, k) {
      NoDescent(e, ctx, k - 1);
    }
  }

  /** Expanding an active continuation means expanding everything below it. */
  ghost predicate Above(active: set<string>, e: Expr, ctx: Context) {
    forall l, k: nat :: l in active && l in ctx.decls && Expandable(ctx.decls[l].cont, ctx, k) ==>
      Expandable(e, ctx, k)
  }

  lemma ChildExpandable(e: Expr, c: Expr, ctx: Context, k: nat)
    requires Expandable(e, ctx, k) && c in Children(e)
    requires e.Jp? ==> e.target !in ctx.jumped
    ensures Expandable(c, ctx, k)
  {
    if e.Jmp? {
      ListedCost(e.args, ctx, k);
    } else if !e.Jp? {
      ChildrenCost(e, ctx, k);
    }
  }

  lemma AboveChild(active: set<string>, e: Expr, c: Expr, ctx: Context)
    requires Above(active, e, ctx) && c in Children(e)
    requires e.Jp? ==> e.target !in ctx.jumped
    ensures Above(active, c, ctx)
  {
    forall l, k: nat | l in active && l in ctx.decls && Expandable(ctx.decls[l].cont, ctx, k)
      ensures Expandable(c, ctx, k)
    {
      ChildExpandable(e, c, ctx, k);
    }
  }

  /** Following a jump keeps every active label, and the new one, above the continuation. */
  lemma AboveTarget(active: set<string>, l: string, es: Exprs, ctx: Context)
    requires Above(active, Jmp(l, es), ctx) && l in ctx.decls
    ensures Above(active + {l}, ctx.decls[l].cont, ctx)
  {
    forall a, k: nat | a in active && a in ctx.decls && Expandable(ctx.decls[a].cont, ctx, k)
      ensures Expandable(ctx.decls[l].cont, ctx, k)
    {
      assert Expandable(Jmp(l, es), ctx, k);
      Stable(ctx.decls[l].cont, ctx, k - 1, k);
    }
  }

  lemma JumpCost(l: string, es: Exprs, ctx: Context, k: nat)
    requires Expandable(Jmp(l, es), ctx, k)
    ensures Each(Listed(es), ctx, k)
    ensures Size(Inlined(Jmp(l, es), ctx, k))
         == |ctx.decls[l].params| + Sum(Listed(es), ctx, k) + Size(Inlined(ctx.decls[l].cont, ctx, k - 1))
    ensures Nest(Jmp(l, es), ctx, k)
         == Max(1 + Nest(ctx.decls[l].cont, ctx, k - 1), Deepest(Listed(es), ctx, k))
  {
    LetsSize(ctx.decls[l].params, InlinedAll(es, ctx, k), Inlined(ctx.decls[l].cont, ctx, k - 1));
    ListedCost(es, ctx, k);
  }

  /** `total` is `start` and the cost of the first `i` children. */
  ghost predicate Tally(cs: seq<Expr>, i: nat, start: Cost, total: Cost, ctx: Context)
    requires i <= |cs|
  {
    && Each(cs[..i], ctx, MAX_DEPTH)
    && total.nodes == start.nodes + Sum(cs[..i], ctx, MAX_DEPTH)
    && total.depth == Max(start.depth, Deepest(cs[..i], ctx, MAX_DEPTH))
  }

  lemma {:induction false} SumSnoc(cs: seq<Expr>, c: Expr, ctx: Context, k: nat)
    requires Each(cs, ctx, k) && Expandable(c, ctx, k)
    ensures Each(cs + [c], ctx, k)
    ensures Sum(cs + [c], ctx, k) == Sum(cs, ctx, k) + Size(Inlined(c, ctx, k))
    ensures Deepest(cs + [c], ctx, k) == Max(Deepest(cs, ctx, k), Nest(c, ctx, k))
  {
    if cs == [] {
      SumCons(c, [], ctx, k);
      assert [] + [c] == [c] + [];
    } else {
      SumSnoc(cs[1..], c, ctx, k);
      assert (cs + [c])[1..] == cs[1..] + [c];
    }
  }

  lemma {:induction false} SumPrefix(cs: seq<Expr>, i: nat, ctx: Context, k: nat)
    requires Each(cs, ctx, k) && i <= |cs|
    ensures Each(cs[..i], ctx, k) && Sum(cs[..i], ctx, k) <= Sum(cs, ctx, k)
  {
    if i > 0 {
      SumPrefix(cs[1..], i - 1, ctx, k);
      assert cs[..i][1..] == cs[1..][..i - 1];
    }
  }

  lemma TallyStep(cs: seq<Expr>, i: nat, start: Cost, total: Cost, c: Cost, ctx: Context, budget: int)
    requires i < |cs| && Tally(cs, i, start, total, ctx) && Exact(cs[i], ctx, c)
    requires budget <= MAX_DEPTH
    ensures Tally(cs, i + 1, start, Cost(total.nodes + c.nodes, Max(total.depth, c.depth)), ctx)
    ensures budget >= 0 && Each(cs, ctx, budget) ==>
      total.nodes + c.nodes <= start.nodes + Sum(cs, ctx, budget)
  {
    SumSnoc(cs[..i], cs[i], ctx, MAX_DEPTH);
    assert cs[..i + 1] == cs[..i] + [cs[i]];
    if budget >= 0 && Each(cs, ctx, budget) {
      StableEach(cs, ctx, budget, MAX_DEPTH);
      SumPrefix(cs, i + 1, ctx, MAX_DEPTH);
    }
  }

  lemma ChildRefused(cs: seq<Expr>, i: nat, start: Cost, total: Cost, ctx: Context, budget: int)
    requires i < |cs| && Tally(cs, i, start, total, ctx) && budget <= MAX_DEPTH
    ensures Never(cs[i], ctx) ==> forall k: nat :: !Each(cs, ctx, k)
    ensures Exceeds(cs[i], ctx, budget) && budget >= 0 && Each(cs, ctx, budget) ==>
      start.nodes + Sum(cs, ctx, budget) > MAX_NODES
  {
    assert cs[i] in cs;
    if budget >= 0 && Each(cs, ctx, budget) {
      SumPrefix(cs, i + 1, ctx, budget);
      SumPrefix(cs, i, ctx, budget);
      SumSnoc(cs[..i], cs[i], ctx, budget);
      assert cs[..i + 1] == cs[..i] + [cs[i]];
    }
  }

  /** The two tables `cost` threads through its recursion. */
  class Table {
    const ctx: Context
    var memo: map<string, Cost>
    var active: set<string>

    /** Memoised costs are exact; active labels are declared and never memoised. */
    ghost predicate Valid()
      reads this
    {
      && ValidContext(ctx)
      && active <= ctx.decls.Keys
      && active !! memo.Keys
      && (forall l :: l in memo ==> l in ctx.decls && Exact(ctx.decls[l].cont, ctx, memo[l]))
    }

    constructor (ctx: Context)
      requires ValidContext(ctx)
      ensures Valid() && this.ctx == ctx && memo == map[] && active == {}
    {
      this.ctx := ctx;
      memo := map[];
      active := {};
    }

    method Measure(e: Expr) returns (r: Result<Cost, Error>)
      requires Valid() && ValidJumps(e, ctx) && Above(active, e, ctx)
      modifies this
      ensures r.Success? ==> Valid() && active == old(active) && Exact(e, ctx, r.value)
      ensures r == Failure(JoinExpansionLimit) ==> Exceeds(e, ctx, MAX_DEPTH - |old(active)|)
      ensures r.Failure? && r.error.UnsupportedJoinPoint? ==> Never(e, ctx)
      decreases ctx.decls.Keys - active, e, 2
    {
      if e.Jmp? {
        r := MeasureJump(e);
      } else if e.Jp? && e.target in ctx.jumped {
        r := Success(Cost(1, 0));
      } else if e.Jp? {
        AboveChild(active, e, e.cont, ctx);
        r := Measure(e.cont);
      } else {
        r := MeasureChildren(e, Cost(1, 0));
        forall k: nat
          ensures Each(Children(e), ctx, k) <==> Expandable(e, ctx, k)
        {
          ChildrenCost(e, ctx, k);
        }
        ChildrenCost(e, ctx, MAX_DEPTH);
        if |old(active)| <= MAX_DEPTH {
          ChildrenCost(e, ctx, MAX_DEPTH - |old(active)|);
        }
      }
    }

    /** Adds the cost of every child to `start`, stopping at the first refusal. */
    method MeasureChildren(e: Expr, start: Cost) returns (r: Result<Cost, Error>)
      requires Valid() && ValidJumps(e, ctx) && Above(active, e, ctx) && !e.Jp?
      requires start.nodes <= MAX_NODES && start.depth <= MAX_DEPTH
      modifies this
      ensures r.Success? ==>
        && Valid() && active == old(active)
        && r.value.nodes <= MAX_NODES && r.value.depth <= MAX_DEPTH
        && Each(Children(e), ctx, MAX_DEPTH)
        && r.value.nodes == start.nodes + Sum(Children(e), ctx, MAX_DEPTH)
        && r.value.depth == Max(start.depth, Deepest(Children(e), ctx, MAX_DEPTH))
      ensures r == Failure(JoinExpansionLimit) ==>
        var budget := MAX_DEPTH - |old(active)|;
        budget >= 0 && Each(Children(e), ctx, budget) ==>
          start.nodes + Sum(Children(e), ctx, budget) > MAX_NODES
      ensures r.Failure? && r.error.UnsupportedJoinPoint? ==>
        forall k: nat :: !Each(Children(e), ctx, k)
      decreases ctx.decls.Keys - active, e, 0
    {
      var cs := Children(e);
      ghost var budget := MAX_DEPTH - |active|;
      var total := start;
      var i := 0;
      while i < |cs|
        invariant 0 <= i <= |cs|
        invariant Valid() && active == old(active)
        invariant total.nodes <= MAX_NODES && total.depth <= MAX_DEPTH
        invariant Tally(cs, i, start, total, ctx)
      {
        AboveChild(active, e, cs[i], ctx);
        r := Measure(cs[i]);
        if r.Failure? {
          ChildRefused(cs, i, start, total, ctx, budget);
          return;
        }
        TallyStep(cs, i, start, total, r.value, ctx, budget);
        r := Plus(total, r.value);
        if r.Failure? { return; }
        total := r.value;
        i := i + 1;
      }
      assert cs[|cs|..] == [] && cs[..|cs|] == cs;
      r := Success(total);
    }

    method MeasureJump(e: Expr) returns (r: Result<Cost, Error>)
      requires e.Jmp?
      requires Valid() && ValidJumps(e, ctx) && Above(active, e, ctx)
      modifies this
      ensures r.Success? ==> Valid() && active == old(active) && Exact(e, ctx, r.value)
      ensures r == Failure(JoinExpansionLimit) ==> Exceeds(e, ctx, MAX_DEPTH - |old(active)|)
      ensures r.Failure? && r.error.UnsupportedJoinPoint? ==> Never(e, ctx)
      decreases ctx.decls.Keys - active, e, 1
    {
      var l := e.target;
      var d := ctx.decls[l];
      ghost var budget := MAX_DEPTH - |active|;
      if |d.params| != Len(e.args) || l in active {
        ActiveTarget(active, e, ctx);
        return Failure(UnsupportedJoinPoint);
      }
      if |active| >= MAX_DEPTH {
        return Failure(JoinExpansionLimit);
      }
      r := MeasureTarget(e);
      if r.Failure? {
        JumpRefused(e, ctx, budget);
        return;
      }
      var inner := r.value;
      JumpBudget(e, ctx, inner, budget);
      r := Plus(Cost(inner.nodes, inner.depth + 1), Cost(|d.params|, 0));
      if r.Failure? { return; }
      r := MeasureChildren(e, r.value);
      if r.Success? {
        JumpExact(e, ctx, inner, r.value);
      }
    }

    /** The cost of the continuation, from the memo table if it is there. */
    method MeasureTarget(e: Expr) returns (r: Result<Cost, Error>)
      requires e.Jmp? && e.target !in active
      requires Valid() && ValidJumps(e, ctx) && Above(active, e, ctx)
      modifies this
      ensures r.Success? ==> Valid() && active == old(active) && Exact(ctx.decls[e.target].cont, ctx, r.value)
      ensures r == Failure(JoinExpansionLimit) ==>
        Exceeds(ctx.decls[e.target].cont, ctx, MAX_DEPTH - |old(active)| - 1)
      ensures r.Failure? && r.error.UnsupportedJoinPoint? ==> Never(ctx.decls[e.target].cont, ctx)
      decreases ctx.decls.Keys - active, e, 0
    {
      var l := e.target;
      if l in memo {
        return Success(memo[l]);
      }
      AboveTarget(active, l, e.args, ctx);
      active := active + {l};
      r := Measure(ctx.decls[l].cont);
      if r.Success? {
        active := active - {l};
        memo := memo[l := r.value];
      }
    }
  }

  /** Whatever fits the budget costs at least its continuation and its parameters. */
  lemma JumpBudget(e: Expr, ctx: Context, inner: Cost, budget: nat)
    requires e.Jmp? && e.target in ctx.decls && 0 < budget <= MAX_DEPTH
    requires Exact(ctx.decls[e.target].cont, ctx, inner)
    ensures forall k: nat :: Expandable(e, ctx, k) ==> Each(Children(e), ctx, k)
    ensures Expandable(e, ctx, budget) ==>
      && inner.depth < budget
      && Size(Inlined(e, ctx, budget))
         == inner.nodes + |ctx.decls[e.target].params| + Sum(Children(e), ctx, budget)
  {
    forall k: nat | Expandable(e, ctx, k)
      ensures Each(Children(e), ctx, k)
    {
      JumpCost(e.target, e.args, ctx, k);
    }
    if Expandable(e, ctx, budget) {
      JumpCost(e.target, e.args, ctx, budget);
      Stable(ctx.decls[e.target].cont, ctx, budget - 1, MAX_DEPTH);
    }
  }

  lemma JumpExact(e: Expr, ctx: Context, inner: Cost, c: Cost)
    requires e.Jmp? && e.target in ctx.decls && |ctx.decls[e.target].params| == Len(e.args)
    requires Exact(ctx.decls[e.target].cont, ctx, inner)
    requires Each(Children(e), ctx, MAX_DEPTH)
    requires c.nodes == inner.nodes + |ctx.decls[e.target].params| + Sum(Children(e), ctx, MAX_DEPTH)
    requires c.depth == Max(inner.depth + 1, Deepest(Children(e), ctx, MAX_DEPTH))
    requires c.nodes <= MAX_NODES && c.depth <= MAX_DEPTH
    ensures Exact(e, ctx, c)
  {
    ListedCost(e.args, ctx, MAX_DEPTH);
    Stable(ctx.decls[e.target].cont, ctx, MAX_DEPTH, MAX_DEPTH - 1);
    JumpCost(e.target, e.args, ctx, MAX_DEPTH);
  }

  lemma ActiveTarget(active: set<string>, e: Expr, ctx: Context)
    requires e.Jmp? && e.target in ctx.decls && Above(active, e, ctx)
    requires |ctx.decls[e.target].params| != Len(e.args) || e.target in active
    ensures Never(e, ctx)
  {
    var body := ctx.decls[e.target].cont;
    if |ctx.decls[e.target].params| == Len(e.args) {
      forall k: nat | Expandable(body, ctx, k)
        ensures k > 0 && Expandable(body, ctx, k - 1)
      {
        assert Expandable(e, ctx, k);
      }
      forall k: nat
        ensures !Expandable(e, ctx, k)
      {
        if Expandable(e, ctx, k) {
          NoDescent(body, ctx, k - 1);
        }
      }
    }
  }

  lemma JumpRefused(e: Expr, ctx: Context, budget: nat)
    requires e.Jmp? && e.target in ctx.decls && budget > 0
    ensures Exceeds(ctx.decls[e.target].cont, ctx, budget - 1) ==> Exceeds(e, ctx, budget)
    ensures Never(ctx.decls[e.target].cont, ctx) ==> Never(e, ctx)
  {
    if Expandable(e, ctx, budget) {
      JumpCost(e.target, e.args, ctx, budget);
    }
  }
}
