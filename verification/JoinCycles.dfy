/** Reachable jump cycles: what makes an expansion impossible.

    `NeverExpands` says that a body whose jumps are valid has no expansion of any depth
    exactly when some chain of jumps that starts in it comes back to a label.
 */
module JoinCycles {
  import opened Ir
  import opened JoinExpansion
  import opened JoinCost

  /** Labels a term jumps to when it runs: a continuation counts only where it is emitted as
      a block. */
  function Live(e: Expr, ctx: Context): set<string> {
    match e
    case Lit(_) => {}
    case Var(_) => {}
    case Param(_) => {}
    case Prim(_, es) => LiveAll(es, ctx)
    case If(c, t, f) => Live(c, ctx) + Live(t, ctx) + Live(f, ctx)
    case Let(_, v, b) => Live(v, ctx) + Live(b, ctx)
    case Match(s, alts) => Live(s, ctx) + LiveAlts(alts, ctx)
    case Call(_, es) => LiveAll(es, ctx)
    case Jp(l, _, c) => if l in ctx.jumped then {} else Live(c, ctx)
    case Jmp(l, es) => {l} + LiveAll(es, ctx)
    case Unreachable => {}
  }

  function LiveAll(es: Exprs, ctx: Context): set<string> {
    match es
    case Nil => {}
    case Cons(e, tail) => Live(e, ctx) + LiveAll(tail, ctx)
  }

  function LiveAlts(alts: Alts, ctx: Context): set<string> {
    match alts
    case NoMore => {}
    case Default(b) => Live(b, ctx)
    case Alt(_, _, b, rest) => Live(b, ctx) + LiveAlts(rest, ctx)
  }

  /** A chain of jumps: the first one in the body, each next one in the continuation of the
      label before it. */
  predicate Chain(body: Expr, ctx: Context, p: seq<string>) {
    && p != [] && p[0] in Live(body, ctx)
    && (forall i :: 0 <= i < |p| - 1 ==> p[i] in ctx.decls && p[i + 1] in Live(ctx.decls[p[i]].cont, ctx))
  }

  predicate Repeats(p: seq<string>) {
    exists i, k :: 0 <= i < k < |p| && p[i] == p[k]
  }

  /** Some chain of jumps from the body comes back to a label. */
  ghost predicate CycleReachable(body: Expr) {
    exists p :: Chain(body, Collect(body), p) && Repeats(p)
  }

  // ---- a cycle has no expansion ----

  /** Expanding a term expands the continuation of every live jump, one level lower. */
  lemma {:induction false} LiveExpands(e: Expr, ctx: Context, k: nat, l: string)
    requires Expandable(e, ctx, k) && l in Live(e, ctx)
    ensures k > 0 && l in ctx.decls && Expandable(ctx.decls[l].cont, ctx, k - 1)
    decreases e
  {
    match e
    case Prim(_, es) => LiveExpandsAll(es, ctx, k, l);
    case If(c, t, f) => LiveExpands(if l in Live(c, ctx) then c else if l in Live(t, ctx) then t else f, ctx, k, l);
    case Let(_, v, b) => LiveExpands(if l in Live(v, ctx) then v else b, ctx, k, l);
    case Match(s, alts) =>
      if l in Live(s, ctx) {
        LiveExpands(s, ctx, k, l);
      } else {
        LiveExpandsAlts(alts, ctx, k, l);
      }
    case Call(_, es) => LiveExpandsAll(es, ctx, k, l);
    case Jp(_, _, c) => LiveExpands(c, ctx, k, l);
    case Jmp(g, es) =>
      if l != g {
        LiveExpandsAll(es, ctx, k, l);
      }
  }

  lemma {:induction false} LiveExpandsAll(es: Exprs, ctx: Context, k: nat, l: string)
    requires ExpandableAll(es, ctx, k) && l in LiveAll(es, ctx)
    ensures k > 0 && l in ctx.decls && Expandable(ctx.decls[l].cont, ctx, k - 1)
    decreases es
  {
    if l in Live(es.head, ctx) {
      LiveExpands(es.head, ctx, k, l);
    } else {
      LiveExpandsAll(es.tail, ctx, k, l);
    }
  }

  lemma {:induction false} LiveExpandsAlts(alts: Alts, ctx: Context, k: nat, l: string)
    requires ExpandableAlts(alts, ctx, k) && l in LiveAlts(alts, ctx)
    ensures k > 0 && l in ctx.decls && Expandable(ctx.decls[l].cont, ctx, k - 1)
    decreases alts
  {
    match alts
    case Default(b) => LiveExpands(b, ctx, k, l);
    case Alt(_, _, b, rest) =>
      if l in Live(b, ctx) {
        LiveExpands(b, ctx, k, l);
      } else {
        LiveExpandsAlts(rest, ctx, k, l);
      }
  }

  /** Along a chain the budget goes down by one at every jump. */
  lemma {:induction false} ChainExpands(body: Expr, ctx: Context, p: seq<string>, i: nat, k: nat)
    requires Chain(body, ctx, p) && i < |p| && Expandable(body, ctx, k)
    ensures k > i && p[i] in ctx.decls && Expandable(ctx.decls[p[i]].cont, ctx, k - 1 - i)
    decreases i
  {
    if i == 0 {
      LiveExpands(body, ctx, k, p[0]);
    } else {
      ChainExpands(body, ctx, p, i - 1, k);
      assert p[i - 1 + 1] in Live(ctx.decls[p[i - 1]].cont, ctx);
      LiveExpands(ctx.decls[p[i - 1]].cont, ctx, k - i, p[i]);
    }
  }

  /** From one visit of a label to the next. */
  lemma {:induction false} LoopExpands(ctx: Context, p: seq<string>, i: nat, j: nat, k: nat)
    requires i <= j < |p| && p[i] in ctx.decls && Expandable(ctx.decls[p[i]].cont, ctx, k)
    requires forall n :: 0 <= n < |p| - 1 ==> p[n] in ctx.decls && p[n + 1] in Live(ctx.decls[p[n]].cont, ctx)
    ensures k >= j - i && p[j] in ctx.decls && Expandable(ctx.decls[p[j]].cont, ctx, k - (j - i))
    decreases j
  {
    if i < j {
      LoopExpands(ctx, p, i, j - 1, k);
      assert p[j - 1 + 1] in Live(ctx.decls[p[j - 1]].cont, ctx);
      LiveExpands(ctx.decls[p[j - 1]].cont, ctx, k - (j - 1 - i), p[j]);
    }
  }

  lemma {:induction false} NoLoop(ctx: Context, p: seq<string>, i: nat, j: nat, k: nat)
    requires i < j < |p| && p[i] == p[j] && p[i] in ctx.decls
    requires forall n :: 0 <= n < |p| - 1 ==> p[n] in ctx.decls && p[n + 1] in Live(ctx.decls[p[n]].cont, ctx)
    ensures !Expandable(ctx.decls[p[i]].cont, ctx, k)
    decreases k
  {
    if Expandable(ctx.decls[p[i]].cont, ctx, k) {
      LoopExpands(ctx, p, i, j, k);
      NoLoop(ctx, p, i, j, k - (j - i));
    }
  }

  // ---- without a cycle there is an expansion ----

  lemma {:induction false} DistinctFits(p: seq<string>, s: set<string>)
    requires !Repeats(p) && forall x :: x in p ==> x in s
    ensures |p| <= |s|
    decreases |p|
  {
    if p != [] {
      var n := |p| - 1;
      forall x | x in p[..n]
        ensures x in s - {p[n]}
      {
        var i :| 0 <= i < n && p[i] == x;
      }
      DistinctFits(p[..n], s - {p[n]});
    }
  }

  /** No chain that goes on from `p` through the term repeats a label. */
  ghost predicate Onward(body: Expr, ctx: Context, p: seq<string>, live: set<string>) {
    && !Repeats(p) && (forall x :: x in p ==> x in ctx.decls)
    && (forall l :: l in live ==> Chain(body, ctx, p + [l]))
    && (forall q :: Chain(body, ctx, q) ==> !Repeats(q))
  }

  ghost predicate Valid(cs: seq<Expr>, ctx: Context) {
    forall c :: c in cs ==> ValidJumps(c, ctx)
  }

  lemma {:induction false} AcyclicExpands(body: Expr, e: Expr, ctx: Context, p: seq<string>, k: nat)
    requires ValidContext(ctx) && ValidJumps(e, ctx) && Onward(body, ctx, p, Live(e, ctx))
    requires k + |p| == |ctx.decls.Keys|
    ensures Expandable(e, ctx, k)
    decreases k, e
  {
    assert Valid(Children(e), ctx);
    match e
    case Lit(_) =>
    case Var(_) =>
    case Param(_) =>
    case Unreachable =>
    case Prim(_, es) => AcyclicExpandsAll(body, es, ctx, p, k);
    case If(c, t, f) =>
      assert c in Children(e) && t in Children(e) && f in Children(e);
      AcyclicExpands(body, c, ctx, p, k);
      AcyclicExpands(body, t, ctx, p, k);
      AcyclicExpands(body, f, ctx, p, k);
    case Let(_, v, b) =>
      assert v in Children(e) && b in Children(e);
      AcyclicExpands(body, v, ctx, p, k);
      AcyclicExpands(body, b, ctx, p, k);
    case Match(s, alts) =>
      assert s in Children(e) && forall c :: c in Bodies(alts) ==> c in Children(e);
      AcyclicExpands(body, s, ctx, p, k);
      AcyclicExpandsAlts(body, alts, ctx, p, k);
    case Call(_, es) => AcyclicExpandsAll(body, es, ctx, p, k);
    case Jp(l, _, c) =>
      if l !in ctx.jumped {
        assert c in Children(e);
        AcyclicExpands(body, c, ctx, p, k);
      }
    case Jmp(l, es) =>
      AcyclicExpandsAll(body, es, ctx, p, k);
      OnwardJump(body, l, ctx, p);
      AcyclicExpands(body, ctx.decls[l].cont, ctx, p + [l], k - 1);
  }

  /** Following a jump extends the chain by a new label. */
  lemma OnwardJump(body: Expr, l: string, ctx: Context, p: seq<string>)
    requires Onward(body, ctx, p, {l}) && l in ctx.decls
    ensures |p| < |ctx.decls.Keys|
    ensures Onward(body, ctx, p + [l], Live(ctx.decls[l].cont, ctx))
  {
    var q := p + [l];
    assert Chain(body, ctx, q) && !Repeats(q);
    DistinctFits(q, ctx.decls.Keys);
    forall g | g in Live(ctx.decls[l].cont, ctx)
      ensures Chain(body, ctx, q + [g])
    {
      var w := q + [g];
      assert w[0] == q[0];
      forall i | 0 <= i < |w| - 1
        ensures w[i] in ctx.decls && w[i + 1] in Live(ctx.decls[w[i]].cont, ctx)
      {
        if i + 1 < |q| {
          assert q[i] in ctx.decls && q[i + 1] in Live(ctx.decls[q[i]].cont, ctx);
        }
      }
    }
  }

  lemma {:induction false} AcyclicExpandsAll(body: Expr, es: Exprs, ctx: Context, p: seq<string>, k: nat)
    requires ValidContext(ctx) && Valid(Listed(es), ctx) && Onward(body, ctx, p, LiveAll(es, ctx))
    requires k + |p| == |ctx.decls.Keys|
    ensures ExpandableAll(es, ctx, k)
    decreases k, es
  {
    match es
    case Nil =>
    case Cons(e, tail) =>
      assert e in Listed(es) && forall c :: c in Listed(tail) ==> c in Listed(es);
      AcyclicExpands(body, e, ctx, p, k);
      AcyclicExpandsAll(body, tail, ctx, p, k);
  }

  lemma {:induction false} AcyclicExpandsAlts(body: Expr, alts: Alts, ctx: Context, p: seq<string>, k: nat)
    requires ValidContext(ctx) && Valid(Bodies(alts), ctx) && Onward(body, ctx, p, LiveAlts(alts, ctx))
    requires k + |p| == |ctx.decls.Keys|
    ensures ExpandableAlts(alts, ctx, k)
    decreases k, alts
  {
    match alts
    case NoMore =>
    case Default(b) =>
      assert b in Bodies(alts);
      AcyclicExpands(body, b, ctx, p, k);
    case Alt(_, _, b, rest) =>
      assert b in Bodies(alts) && forall c :: c in Bodies(rest) ==> c in Bodies(alts);
      AcyclicExpands(body, b, ctx, p, k);
      AcyclicExpandsAlts(body, rest, ctx, p, k);
  }

  /** With valid jumps, no expansion of any depth exists exactly when a cycle is reachable. */
  lemma NeverExpands(body: Expr)
    requires ValidContext(Collect(body)) && ValidJumps(body, Collect(body))
    ensures Never(body, Collect(body)) <==> CycleReachable(body)
  {
    var ctx := Collect(body);
    if CycleReachable(body) {
      var p :| Chain(body, ctx, p) && Repeats(p);
      var i, j :| 0 <= i < j < |p| && p[i] == p[j];
      forall k: nat
        ensures !Expandable(body, ctx, k)
      {
        if Expandable(body, ctx, k) {
          ChainExpands(body, ctx, p, i, k);
          NoLoop(ctx, p, i, j, k - 1 - i);
        }
      }
    } else {
      forall l | l in Live(body, ctx)
        ensures Chain(body, ctx, [] + [l])
      {}
      AcyclicExpands(body, body, ctx, [], |ctx.decls.Keys|);
    }
  }
}
