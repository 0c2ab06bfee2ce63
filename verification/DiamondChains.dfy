/** Chains of diamonds (`joins.rs`, the pass's own tests).

    Each join ends in a branch whose two arms jump to the join before it, so that plain
    expansion doubles with every link.  Factored, the expansion is linear, and the pass
    accepts chains of every length its depth limit allows.
 */
module DiamondChains {
  import opened Ir
  import opened JoinCost
  import opened JoinExpansion
  import opened JoinFactoring
  import opened Wrappers
  import JoinCycles
  import JoinPass
  import Semantics

  /** Link `k` is the join `labels[k]` with the parameter `values[k]`; `matches[k]` makes its
      branch a match rather than an if.  `entry` is what the body hands to the last join. */
  datatype Links = Links(
    labels: seq<string>, values: seq<string>, matches: seq<bool>, guard: Expr, entry: Expr) {
    predicate Valid() {
      |labels| == |values| == |matches| > 0 && Distinct(labels) && Leaf(guard) && Leaf(entry)
    }
  }

  predicate Leaf(e: Expr) {
    e.Var? || e.Lit? || e.Param?
  }

  function Jump(l: string, arg: Expr): Expr {
    Jmp(l, Cons(arg, Nil))
  }

  /** The two arms of a match. */
  function Arms(arm: Expr): Alts {
    Alt("Bool.true", [], arm, Default(arm))
  }

  function Branch(c: Links, k: nat, arm: Expr): Expr
    requires c.Valid() && k < |c.labels|
  {
    if c.matches[k] then Match(c.guard, Arms(arm))
    else If(c.guard, arm, arm)
  }

  /** The continuation of a link; factored, the branch selects the argument. */
  function Cont(c: Links, factored: bool, k: nat): Expr
    requires c.Valid() && k < |c.labels|
  {
    if k == 0 then Var(c.values[0])
    else if factored then Jump(c.labels[k - 1], Branch(c, k, Var(c.values[k])))
    else Branch(c, k, Jump(c.labels[k - 1], Var(c.values[k])))
  }

  /** The declaration of a link. */
  function Link(c: Links, factored: bool, k: nat, rest: Expr): Expr
    requires c.Valid() && k < |c.labels|
  {
    Let(c.labels[k], Jp(c.labels[k], [c.values[k]], Cont(c, factored, k)), rest)
  }

  /** The links from `k` on, around a jump to the last one. */
  function Body(c: Links, factored: bool, k: nat): Expr
    requires c.Valid() && k <= |c.labels|
    decreases |c.labels| - k
  {
    if k == |c.labels| then Jump(c.labels[k - 1], c.entry)
    else Link(c, factored, k, Body(c, factored, k + 1))
  }

  // ---- one-argument jumps and two-armed branches ----

  lemma JumpIs(l: string, arg: Expr, available: set<string>, tail: bool)
    ensures Factor(Jump(l, arg), available, tail) == Jump(l, Factor(arg, available, false))
    ensures TailDestination(Jump(l, arg)) == Some(l) && TakeTail(Jump(l, arg), l) == arg
    ensures DeclsOf(Jump(l, arg)) == DeclsOf(arg) && JumpsOf(Jump(l, arg)) == {l} + JumpsOf(arg)
    ensures Size(Jump(l, arg)) == 1 + Size(arg)
  {
    var es := Cons(arg, Nil);
    assert es.tail == Nil && FactorAll(es.tail, available) == Nil && SizeAll(es.tail) == 0;
    JoinPass.SingleContext(arg);
  }

  lemma ArmsIs(l: string, v: Expr, available: set<string>)
    requires Factor(v, available, false) == v
    ensures FactorAlts(Arms(Jump(l, v)), available, true) == Arms(Jump(l, v))
    ensures TailDestinationAlts(Arms(Jump(l, v))) == Some(l)
    ensures TakeTailAlts(Arms(Jump(l, v)), l) == Arms(v)
  {
    JumpIs(l, v, available, true);
    var rest := Default(Jump(l, v));
    assert FactorAlts(rest, available, true) == rest && TailDestinationAlts(rest) == Some(l);
    assert TakeTailAlts(rest, l) == Default(v);
  }

  /** Two arms that jump to one available label become one jump. */
  lemma BranchHoisted(c: Links, k: nat, l: string, v: Expr, available: set<string>)
    requires c.Valid() && k < |c.labels| && l in available && Factor(v, available, false) == v
    ensures Factor(Branch(c, k, Jump(l, v)), available, true) == Jump(l, Branch(c, k, v))
  {
    JumpIs(l, v, available, true);
    assert Factor(c.guard, available, false) == c.guard;
    if c.matches[k] {
      ArmsIs(l, v, available);
    }
  }

  lemma BranchIs(c: Links, k: nat, arm: Expr)
    requires c.Valid() && k < |c.labels|
    ensures DeclsOf(Branch(c, k, arm)) == DeclsOf(arm) && JumpsOf(Branch(c, k, arm)) == JumpsOf(arm)
    ensures Size(Branch(c, k, arm)) == 2 + 2 * Size(arm)
  {
    var rest := Default(arm);
    assert DeclsOfAlts(rest) == DeclsOf(arm) && JumpsOfAlts(rest) == JumpsOf(arm) && SizeAlts(rest) == Size(arm);
    assert DeclsOf(c.guard) == map[] && JumpsOf(c.guard) == {} && Size(c.guard) == 1;
  }

  // ---- factoring a chain ----

  function Labels(c: Links, k: nat): set<string>
    requires c.Valid() && k <= |c.labels|
  {
    set i | 0 <= i < k :: c.labels[i]
  }

  lemma FactorCont(c: Links, k: nat)
    requires c.Valid() && k < |c.labels|
    ensures Factor(Cont(c, false, k), Labels(c, k), true) == Cont(c, true, k)
  {
    if k > 0 {
      assert c.labels[k - 1] in Labels(c, k);
      BranchHoisted(c, k, c.labels[k - 1], Var(c.values[k]), Labels(c, k));
    }
  }

  lemma {:induction false} FactorBody(c: Links, k: nat)
    requires c.Valid() && k <= |c.labels|
    ensures Factor(Body(c, false, k), Labels(c, k), true) == Body(c, true, k)
    decreases |c.labels| - k
  {
    if k == |c.labels| {
      JumpIs(c.labels[k - 1], c.entry, Labels(c, k), true);
    } else {
      FactorBody(c, k + 1);
      FactorLink(c, k, Body(c, false, k + 1), Body(c, true, k + 1));
    }
  }

  lemma FactorLink(c: Links, k: nat, rest: Expr, rest': Expr)
    requires c.Valid() && k < |c.labels| && Factor(rest, Labels(c, k + 1), true) == rest'
    ensures Factor(Link(c, false, k, rest), Labels(c, k), true) == Link(c, true, k, rest')
  {
    FactorCont(c, k);
    assert Labels(c, k + 1) == Labels(c, k) + {c.labels[k]};
    var cont := Cont(c, false, k);
    assert Factor(Jp(c.labels[k], [c.values[k]], cont), Labels(c, k), false)
        == Jp(c.labels[k], [c.values[k]], Cont(c, true, k));
  }

  // ---- what a chain declares ----

  lemma ContJumps(c: Links, factored: bool, k: nat)
    requires c.Valid() && k < |c.labels|
    ensures DeclsOf(Cont(c, factored, k)) == map[]
    ensures JumpsOf(Cont(c, factored, k)) == if k == 0 then {} else {c.labels[k - 1]}
  {
    if k > 0 {
      var l, v := c.labels[k - 1], Var(c.values[k]);
      JumpIs(l, if factored then Branch(c, k, v) else v, {}, true);
      BranchIs(c, k, if factored then v else Jump(l, v));
    }
  }

  /** The labels of the links from `k` on. */
  function Later(c: Links, k: nat): set<string>
    requires c.Valid() && k <= |c.labels|
  {
    set i | k <= i < |c.labels| :: c.labels[i]
  }

  lemma {:induction false} BodyKeys(c: Links, factored: bool, k: nat)
    requires c.Valid() && k <= |c.labels|
    ensures DeclsOf(Body(c, factored, k)).Keys == Later(c, k)
    decreases |c.labels| - k
  {
    if k == |c.labels| {
      JumpIs(c.labels[k - 1], c.entry, {}, true);
    } else {
      BodyKeys(c, factored, k + 1);
      LinkKeys(c, factored, k, Body(c, factored, k + 1));
    }
  }

  lemma LinkKeys(c: Links, factored: bool, k: nat, rest: Expr)
    requires c.Valid() && k < |c.labels| && DeclsOf(rest).Keys == Later(c, k + 1)
    ensures DeclsOf(Link(c, factored, k, rest)).Keys == Later(c, k)
  {
    ContJumps(c, factored, k);
    LetDecls(c.labels[k], [c.values[k]], Cont(c, factored, k), rest);
    assert Later(c, k) == {c.labels[k]} + Later(c, k + 1);
  }

  ghost predicate Jumped(c: Links, jumped: set<string>) {
    forall i :: 0 <= i < |c.labels| ==> c.labels[i] in jumped
  }

  /** The context has every link. */
  ghost predicate Records(c: Links, factored: bool, ctx: Context)
    requires c.Valid()
  {
    Declares(c, factored, ctx.decls, 0) && Jumped(c, ctx.jumped)
  }

  predicate Entry(c: Links, factored: bool, decls: map<string, Decl>, i: nat)
    requires c.Valid() && i < |c.labels|
  {
    c.labels[i] in decls && decls[c.labels[i]] == Decl([c.values[i]], Cont(c, factored, i))
  }

  ghost predicate Declares(c: Links, factored: bool, decls: map<string, Decl>, k: nat)
    requires c.Valid()
  {
    forall i :: k <= i < |c.labels| ==> Entry(c, factored, decls, i)
  }

  lemma {:induction false} BodyDecls(c: Links, factored: bool, k: nat)
    requires c.Valid() && k <= |c.labels|
    ensures Declares(c, factored, DeclsOf(Body(c, factored, k)), k)
    decreases |c.labels| - k
  {
    if k < |c.labels| {
      BodyDecls(c, factored, k + 1);
      BodyKeys(c, factored, k + 1);
      DeclaresOne(c, factored, k, Body(c, factored, k + 1));
      assert Body(c, factored, k) == Link(c, factored, k, Body(c, factored, k + 1));
    }
  }

  lemma DeclaresOne(c: Links, factored: bool, k: nat, rest: Expr)
    requires c.Valid() && k < |c.labels|
    requires Declares(c, factored, DeclsOf(rest), k + 1) && DeclsOf(rest).Keys == Later(c, k + 1)
    ensures Declares(c, factored, DeclsOf(Link(c, factored, k, rest)), k)
  {
    ContJumps(c, factored, k);
    LetDecls(c.labels[k], [c.values[k]], Cont(c, factored, k), rest);
    DeclaresMore(c, factored, k, DeclsOf(rest));
  }

  lemma DeclaresMore(c: Links, factored: bool, k: nat, rest: map<string, Decl>)
    requires c.Valid() && k < |c.labels| && Declares(c, factored, rest, k + 1)
    ensures Declares(c, factored, rest[c.labels[k] := Decl([c.values[k]], Cont(c, factored, k))], k)
  {
    forall i | k < i < |c.labels| ensures c.labels[i] != c.labels[k] && Entry(c, factored, rest, i) {}
  }

  lemma LetDecls(l: string, ps: seq<string>, cont: Expr, body: Expr)
    requires DeclsOf(cont) == map[]
    ensures l !in DeclsOf(body) ==> DeclsOf(Let(l, Jp(l, ps, cont), body)) == DeclsOf(body)[l := Decl(ps, cont)]
  {
    assert DeclsOf(Jp(l, ps, cont)) == map[l := Decl(ps, cont)];
  }

  lemma {:induction false} BodyJumps(c: Links, factored: bool, k: nat)
    requires c.Valid() && k <= |c.labels|
    ensures forall i :: 0 <= i < |c.labels| && k - 1 <= i ==> c.labels[i] in JumpsOf(Body(c, factored, k))
    decreases |c.labels| - k
  {
    if k < |c.labels| {
      BodyJumps(c, factored, k + 1);
      ContJumps(c, factored, k);
    }
  }

  lemma Recorded(c: Links, factored: bool)
    requires c.Valid()
    ensures Records(c, factored, Collect(Body(c, factored, 0)))
    ensures JoinPass.Acyclic(Collect(Body(c, factored, 0)))
  {
    BodyDecls(c, factored, 0);
    BodyKeys(c, factored, 0);
    BodyJumps(c, factored, 0);
    LinksAcyclic(c, factored, Collect(Body(c, factored, 0)));
  }

  lemma LinksAcyclic(c: Links, factored: bool, ctx: Context)
    requires c.Valid() && Records(c, factored, ctx) && ctx.decls.Keys == Later(c, 0)
    ensures JoinPass.Acyclic(ctx)
  {
    forall l | l in ctx.decls ensures l !in JumpsOf(ctx.decls[l].cont) {
      var i :| 0 <= i < |c.labels| && c.labels[i] == l;
      assert Entry(c, factored, ctx.decls, i);
      LinkAcyclic(c, factored, i);
    }
  }

  lemma LinkAcyclic(c: Links, factored: bool, k: nat)
    requires c.Valid() && k < |c.labels|
    ensures c.labels[k] !in JumpsOf(Cont(c, factored, k))
  {
    ContJumps(c, factored, k);
    assert k > 0 ==> c.labels[k - 1] != c.labels[k];
  }

  lemma BranchValid(c: Links, k: nat, arm: Expr, ctx: Context)
    requires c.Valid() && k < |c.labels| && ValidJumps(arm, ctx)
    ensures ValidJumps(Branch(c, k, arm), ctx)
  {
    var e := Branch(c, k, arm);
    if c.matches[k] {
      assert Bodies(e.alts) == [arm] + Bodies(Default(arm));
    }
  }

  lemma JumpValid(l: string, arg: Expr, ctx: Context)
    requires l in ctx.decls && |ctx.decls[l].params| == 1 && ValidJumps(arg, ctx)
    ensures ValidJumps(Jump(l, arg), ctx)
  {
    assert Listed(Cons(arg, Nil)) == [arg] + Listed(Nil);
  }

  lemma ContValid(c: Links, factored: bool, k: nat, ctx: Context)
    requires c.Valid() && k < |c.labels| && Records(c, factored, ctx)
    ensures ValidJumps(Cont(c, factored, k), ctx)
  {
    if k > 0 {
      var v := Var(c.values[k]);
      assert Entry(c, factored, ctx.decls, k - 1);
      if factored {
        BranchValid(c, k, v, ctx);
        JumpValid(c.labels[k - 1], Branch(c, k, v), ctx);
      } else {
        JumpValid(c.labels[k - 1], v, ctx);
        BranchValid(c, k, Jump(c.labels[k - 1], v), ctx);
      }
    }
  }

  lemma LetValid(l: string, ps: seq<string>, cont: Expr, body: Expr, ctx: Context)
    requires ValidJumps(cont, ctx) && ValidJumps(body, ctx)
    ensures ValidJumps(Let(l, Jp(l, ps, cont), body), ctx)
  {
    assert ValidJumps(Jp(l, ps, cont), ctx);
  }

  lemma {:induction false} LinksValid(c: Links, factored: bool, k: nat, ctx: Context)
    requires c.Valid() && k <= |c.labels| && ValidJumps(Body(c, factored, |c.labels|), ctx)
    requires forall i :: 0 <= i < |c.labels| ==> ValidJumps(Cont(c, factored, i), ctx)
    ensures ValidJumps(Body(c, factored, k), ctx)
    decreases |c.labels| - k
  {
    if k < |c.labels| {
      LinksValid(c, factored, k + 1, ctx);
      LetValid(c.labels[k], [c.values[k]], Cont(c, factored, k), Body(c, factored, k + 1), ctx);
    }
  }

  lemma BodyValid(c: Links, factored: bool, ctx: Context)
    requires c.Valid() && Records(c, factored, ctx)
    ensures ValidJumps(Body(c, factored, 0), ctx)
  {
    forall i | 0 <= i < |c.labels| ensures ValidJumps(Cont(c, factored, i), ctx) {
      ContValid(c, factored, i, ctx);
    }
    assert Entry(c, factored, ctx.decls, |c.labels| - 1);
    JumpValid(c.labels[|c.labels| - 1], c.entry, ctx);
    LinksValid(c, factored, 0, ctx);
  }

  // ---- what a chain costs ----

  /** Nodes of an expanded continuation: five more with every factored link, twice as many
      and six more with every other one. */
  function ContSize(factored: bool, k: nat): nat {
    if k == 0 then 1
    else if factored then 5 + ContSize(factored, k - 1)
    else 6 + 2 * ContSize(factored, k - 1)
  }

  lemma {:induction false} ContSizeExactly(k: nat)
    ensures ContSize(true, k) == 5 * k + 1
    ensures ContSize(false, k) == 7 * Semantics.Power(2, k) - 6
  {
    if k > 0 {
      ContSizeExactly(k - 1);
    }
  }

  lemma JumpCosts(l: string, arg: Expr, ctx: Context, budget: nat)
    requires l in ctx.decls && |ctx.decls[l].params| == 1
    ensures Expandable(Jump(l, arg), ctx, budget)
       <==> budget > 0 && Expandable(arg, ctx, budget) && Expandable(ctx.decls[l].cont, ctx, budget - 1)
    ensures Expandable(Jump(l, arg), ctx, budget) ==>
      Size(Inlined(Jump(l, arg), ctx, budget))
      == 1 + Size(Inlined(arg, ctx, budget)) + Size(Inlined(ctx.decls[l].cont, ctx, budget - 1))
  {
    var es := Cons(arg, Nil);
    assert Len(es) == 1 + Len(Nil) && ExpandableAll(Nil, ctx, budget);
    if Expandable(Jump(l, arg), ctx, budget) {
      assert InlinedAll(Nil, ctx, budget) == Nil && SizeAll(Nil) == 0;
      LetsSize(ctx.decls[l].params, InlinedAll(es, ctx, budget), Inlined(ctx.decls[l].cont, ctx, budget - 1));
    }
  }

  lemma BranchCosts(c: Links, k: nat, arm: Expr, ctx: Context, budget: nat)
    requires c.Valid() && k < |c.labels|
    ensures Expandable(Branch(c, k, arm), ctx, budget) <==> Expandable(arm, ctx, budget)
    ensures Expandable(arm, ctx, budget) ==>
      Size(Inlined(Branch(c, k, arm), ctx, budget)) == 2 + 2 * Size(Inlined(arm, ctx, budget))
  {
    assert Expandable(c.guard, ctx, budget) && Size(Inlined(c.guard, ctx, budget)) == 1;
    var rest := Default(arm);
    assert ExpandableAlts(rest, ctx, budget) <==> Expandable(arm, ctx, budget);
    if c.matches[k] && Expandable(arm, ctx, budget) {
      assert SizeAlts(InlinedAlts(rest, ctx, budget)) == Size(Inlined(arm, ctx, budget));
    }
  }

  lemma {:induction false} ContCosts(c: Links, factored: bool, k: nat, ctx: Context, budget: nat)
    requires c.Valid() && k < |c.labels| && Records(c, factored, ctx)
    ensures Expandable(Cont(c, factored, k), ctx, budget) <==> budget >= k
    ensures budget >= k ==> Size(Inlined(Cont(c, factored, k), ctx, budget)) == ContSize(factored, k)
    decreases k
  {
    if k > 0 {
      if budget > 0 {
        ContCosts(c, factored, k - 1, ctx, budget - 1);
      }
      LinkCosts(c, factored, k, ctx, budget);
    }
  }

  /** One link adds its branch and a let to what the join before it costs. */
  lemma LinkCosts(c: Links, factored: bool, k: nat, ctx: Context, budget: nat)
    requires c.Valid() && 0 < k < |c.labels| && Records(c, factored, ctx)
    ensures var before := Cont(c, factored, k - 1);
      && (Expandable(Cont(c, factored, k), ctx, budget) <==> budget > 0 && Expandable(before, ctx, budget - 1))
      && (Expandable(Cont(c, factored, k), ctx, budget) ==>
            Size(Inlined(Cont(c, factored, k), ctx, budget))
            == if factored then 5 + Size(Inlined(before, ctx, budget - 1))
               else 6 + 2 * Size(Inlined(before, ctx, budget - 1)))
  {
    var l, v := c.labels[k - 1], Var(c.values[k]);
    assert Entry(c, factored, ctx.decls, k - 1);
    assert Expandable(v, ctx, budget) && Size(Inlined(v, ctx, budget)) == 1;
    if factored {
      BranchCosts(c, k, v, ctx, budget);
      JumpCosts(l, Branch(c, k, v), ctx, budget);
    } else {
      JumpCosts(l, v, ctx, budget);
      BranchCosts(c, k, Jump(l, v), ctx, budget);
    }
  }

  lemma {:induction false} BodyCosts(c: Links, factored: bool, k: nat, ctx: Context, budget: nat)
    requires c.Valid() && k <= |c.labels| && Jumped(c, ctx.jumped)
    ensures var e, last := Body(c, factored, k), Body(c, factored, |c.labels|);
      && (Expandable(e, ctx, budget) <==> Expandable(last, ctx, budget))
      && (Expandable(last, ctx, budget) ==>
            Size(Inlined(e, ctx, budget)) == 2 * (|c.labels| - k) + Size(Inlined(last, ctx, budget)))
    decreases |c.labels| - k
  {
    if k < |c.labels| {
      BodyCosts(c, factored, k + 1, ctx, budget);
      assert c.labels[k] in ctx.jumped;
      DeadLetCosts(c.labels[k], [c.values[k]], Cont(c, factored, k), Body(c, factored, k + 1), ctx, budget);
    }
  }

  lemma EntryCosts(c: Links, factored: bool, ctx: Context, budget: nat)
    requires c.Valid() && Records(c, factored, ctx)
    ensures var e := Jump(c.labels[|c.labels| - 1], c.entry);
      && (Expandable(e, ctx, budget) <==> budget >= |c.labels|)
      && (budget >= |c.labels| ==> Size(Inlined(e, ctx, budget)) == 2 + ContSize(factored, |c.labels| - 1))
  {
    var last := |c.labels| - 1;
    assert Entry(c, factored, ctx.decls, last);
    if budget > 0 {
      ContCosts(c, factored, last, ctx, budget - 1);
    }
    JumpCosts(c.labels[last], c.entry, ctx, budget);
    LeafCosts(c.entry, ctx, budget);
  }

  lemma LeafCosts(e: Expr, ctx: Context, budget: nat)
    requires Leaf(e)
    ensures Expandable(e, ctx, budget) && Size(Inlined(e, ctx, budget)) == 1
  {}

  /** A declaration that is jumped to leaves a let of the unit. */
  lemma DeadLetCosts(l: string, ps: seq<string>, cont: Expr, body: Expr, ctx: Context, budget: nat)
    requires l in ctx.jumped
    ensures var e := Let(l, Jp(l, ps, cont), body);
      && (Expandable(e, ctx, budget) <==> Expandable(body, ctx, budget))
      && (Expandable(body, ctx, budget) ==>
            Size(Inlined(e, ctx, budget)) == 2 + Size(Inlined(body, ctx, budget)))
  {
    var v := Jp(l, ps, cont);
    assert Expandable(v, ctx, budget) && Inlined(v, ctx, budget) == UnitExpr && Size(UnitExpr) == 1;
  }

  /** Nodes of the expanded chain of `n` links. */
  function ChainSize(factored: bool, n: nat): nat
    requires n > 0
  {
    if factored then 7 * n - 2 else 2 * n + 7 * Semantics.Power(2, n - 1) - 4
  }

  /** The exact cost of a chain, factored or not: as deep as it has links, linear in one case
      and exponential in the other. */
  lemma ChainCosts(c: Links, factored: bool, budget: nat)
    requires c.Valid()
    ensures var e := Body(c, factored, 0);
      && (Expandable(e, Collect(e), budget) <==> budget >= |c.labels|)
      && (budget >= |c.labels| ==> Size(Inlined(e, Collect(e), budget)) == ChainSize(factored, |c.labels|))
  {
    var e := Body(c, factored, 0);
    Recorded(c, factored);
    BodyCosts(c, factored, 0, Collect(e), budget);
    EntryCosts(c, factored, Collect(e), budget);
    ContSizeExactly(|c.labels| - 1);
  }

  // ---- when a chain is accepted ----

  lemma {:induction false} SourceSize(c: Links, k: nat)
    requires c.Valid() && k <= |c.labels|
    ensures Size(Body(c, false, k)) <= 8 * (|c.labels| - k) + 2
    decreases |c.labels| - k
  {
    if k == |c.labels| {
      JumpIs(c.labels[k - 1], c.entry, {}, true);
    } else {
      SourceSize(c, k + 1);
      ContSourceSize(c, k);
    }
  }

  lemma ContSourceSize(c: Links, k: nat)
    requires c.Valid() && k < |c.labels|
    ensures Size(Cont(c, false, k)) <= 6
  {
    if k > 0 {
      var l, v := c.labels[k - 1], Var(c.values[k]);
      JumpIs(l, v, {}, true);
      BranchIs(c, k, Jump(l, v));
    }
  }

  lemma ChainAccepts(c: Links, factored: bool)
    requires c.Valid()
    ensures var e := Body(c, factored, 0);
      JoinPass.Accepts(e) <==> |c.labels| <= MAX_DEPTH && ChainSize(factored, |c.labels|) <= MAX_NODES
  {
    var e := Body(c, factored, 0);
    Recorded(c, factored);
    BodyValid(c, factored, Collect(e));
    ChainCosts(c, factored, MAX_DEPTH);
  }

  /** The pass refuses a chain exactly when it has more links than the depth limit. */
  lemma ChainRefused(c: Links)
    requires c.Valid()
    ensures JoinPass.Refusable(Body(c, false, 0)) <==> |c.labels| > MAX_DEPTH
  {
    var e := Body(c, false, 0);
    ChainFactored(c);
    ChainAccepts(c, false);
    ChainAccepts(c, true);
    Recorded(c, false);
    BodyValid(c, false, Collect(e));
    JoinPass.ContsValid(e, Collect(e));
    ChainCosts(c, false, |c.labels|);
    JoinCycles.NeverExpands(e);
    SourceSize(c, 0);
  }

  lemma ChainFactored(c: Links)
    requires c.Valid()
    ensures Factor(Body(c, false, 0), {}, true) == Body(c, true, 0)
  {
    FactorBody(c, 0);
    assert Labels(c, 0) == {};
  }

  /** The pass on a chain: what fits unfactored is expanded as it is, all else by way of the
      factored chain, in size linear in its length. */
  method ExpandChain(d: Definition, c: Links) returns (r: Result<Option<Definition>, Error>)
    requires c.Valid() && d.body == Body(c, false, 0)
    ensures r.Success? <==> |c.labels| <= MAX_DEPTH
    ensures r.Success? ==> r.value.Some? && r.value.value == d.(body := r.value.value.body)
    ensures r.Success? ==>
      var n := |c.labels|;
      Size(r.value.value.body) == ChainSize(ChainSize(false, n) > MAX_NODES, n)
  {
    BodyDecls(c, false, 0);
    assert c.labels[0] in DeclsOf(d.body);
    ChainRefused(c);
    ChainFactored(c);
    ChainAccepts(c, false);
    ChainAccepts(c, true);
    ChainCosts(c, false, MAX_DEPTH);
    ChainCosts(c, true, MAX_DEPTH);
    r := JoinPass.Expand(d);
  }
}
