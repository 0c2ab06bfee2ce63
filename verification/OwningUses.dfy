/** Which uses of a formal may own it (`owned_uses`).

    The recursion passes down whether the context consumes what stands there.  Seen from an
    occurrence, it asks what stands above: something that consumes, or something transparent
    in a consuming place.  `OwnedExactly` says that these are the same.
 */
module OwningUses {
  import opened Ir
  import opened Paths
  import opened UsePlaces
  import opened Wrappers

  /** Every occurrence of `x` is consumed: by a constructor, as the left operand of an
      append, as the same argument of a self call, or where its context is consumed. */
  predicate OwnedUses(e: Expr, x: string, index: nat, self: string, owned: bool) {
    match e
    case Lit(_) => true
    case Var(y) => y == x ==> owned
    case Param(_) => false
    case Jp(_, _, _) => false
    case Jmp(_, _) => false
    case Unreachable => true
    case Let(y, v, b) => y != x && OwnedUses(v, x, index, self, false) && OwnedUses(b, x, index, self, owned)
    case Prim(op, es) =>
      if op.Ctor? then OwnedUsesAll(es, x, index, self, true)
      else if op.Append? then OwnedOperands(es, x, index, self)
      else OwnedUsesAll(es, x, index, self, false)
    case Call(f, es) => OwnedArgs(es, 0, x, index, self, f)
    case If(c, t, f) =>
      && OwnedUses(c, x, index, self, false)
      && OwnedUses(t, x, index, self, owned)
      && OwnedUses(f, x, index, self, owned)
    case Match(s, alts) =>
      OwnedUses(s, x, index, self, false) && OwnedUsesAlts(alts, x, index, self, owned)
  }

  predicate OwnedUsesAll(es: Exprs, x: string, index: nat, self: string, owned: bool) {
    match es
    case Nil => true
    case Cons(e, tail) => OwnedUses(e, x, index, self, owned) && OwnedUsesAll(tail, x, index, self, owned)
  }

  /** The left operand of an append is owned, the right one is read. */
  predicate OwnedOperands(es: Exprs, x: string, index: nat, self: string) {
    es.Cons? ==> OwnedUses(es.head, x, index, self, true) && OwnedUsesAll(es.tail, x, index, self, false)
  }

  predicate OwnedArgs(es: Exprs, position: nat, x: string, index: nat, self: string, callee: string) {
    match es
    case Nil => true
    case Cons(e, tail) =>
      && OwnedUses(e, x, index, self, callee == self && position == index)
      && OwnedArgs(tail, position + 1, x, index, self, callee)
  }

  predicate OwnedUsesAlts(alts: Alts, x: string, index: nat, self: string, owned: bool) {
    match alts
    case NoMore => true
    case Default(b) => OwnedUses(b, x, index, self, owned)
    case Alt(_, bs, b, rest) =>
      x !in bs && OwnedUses(b, x, index, self, owned) && OwnedUsesAlts(rest, x, index, self, owned)
  }

  // ---- the same, by places ----

  /** The node takes over what child `i` yields: a constructor, the left operand of an append,
      the formal's own argument of a self call. */
  predicate Consumes(e: Expr, i: nat, index: nat, self: string) {
    || (e.Prim? && e.op.Ctor?)
    || (e.Prim? && e.op.Append? && i == 0)
    || (e.Call? && e.callee == self && i == index)
  }

  /** What stands at the place is consumed, by what stands above it or further up; `owned`
      says so of the term as a whole. */
  predicate ConsumedAt(e: Expr, path: Path, index: nat, self: string, owned: bool)
    decreases |path|
  {
    if path == [] then owned
    else
      var s := Above(e, path);
      s.Some? &&
      (Consumes(s.value, Last(path), index, self) ||
       (Yields(s.value, Last(path)) && ConsumedAt(e, Front(path), index, self, owned)))
  }

  predicate Binds(alts: Alts, x: string) {
    alts.Alt? && (x in alts.binders || Binds(alts.rest, x))
  }

  /** No join, no formal by position, and no binder of the name. */
  predicate PlainNode(e: Expr, x: string) {
    match e
    case Param(_) => false
    case Jp(_, _, _) => false
    case Jmp(_, _) => false
    case Let(y, _, _) => y != x
    case Match(_, alts) => !Binds(alts, x)
    case _ => true
  }

  predicate PlainAt(e: Expr, path: Path, x: string) {
    var s := At(e, path); s.Some? ==> PlainNode(s.value, x)
  }

  ghost predicate PlainTree(e: Expr, x: string) {
    forall path :: PlainAt(e, path, x)
  }

  ghost predicate AllConsumed(e: Expr, x: string, index: nat, self: string, owned: bool) {
    forall path :: Occurs(e, path, x) ==> ConsumedAt(e, path, index, self, owned)
  }

  ghost predicate Owning(e: Expr, x: string, index: nat, self: string, owned: bool) {
    PlainTree(e, x) && AllConsumed(e, x, index, self, owned)
  }

  /** Whether child `i` is consumed. */
  predicate Context(e: Expr, i: nat, index: nat, self: string, owned: bool) {
    Consumes(e, i, index, self) || (Yields(e, i) && owned)
  }

  lemma {:induction false} ConsumedBelow(e: Expr, i: nat, path: Path, index: nat, self: string, owned: bool)
    requires i < |Children(e)|
    ensures ConsumedAt(e, [i] + path, index, self, owned)
       <==> ConsumedAt(Children(e)[i], path, index, self, Context(e, i, index, self, owned))
    decreases |path|
  {
    if path == [] {
      assert Front([i] + path) == [] && Last([i] + path) == i;
    } else {
      FrontStep(i, path);
      AtStep(e, i, Front(path));
      ConsumedBelow(e, i, Front(path), index, self, owned);
    }
  }

  ghost predicate OwningHere(e: Expr, x: string, owned: bool) {
    PlainNode(e, x) && (e == Var(x) ==> owned)
  }

  ghost predicate OwningBelowAll(e: Expr, x: string, index: nat, self: string, owned: bool) {
    forall i :: 0 <= i < |Children(e)| ==> Owning(Children(e)[i], x, index, self, Context(e, i, index, self, owned))
  }

  /** Node by node. */
  lemma OwningBelow(e: Expr, x: string, index: nat, self: string, owned: bool)
    ensures Owning(e, x, index, self, owned)
       <==> OwningHere(e, x, owned) && OwningBelowAll(e, x, index, self, owned)
  {
    if Owning(e, x, index, self, owned) {
      assert PlainAt(e, [], x) && At(e, []) == Some(e);
      assert e == Var(x) ==> Occurs(e, [], x);
      forall i | 0 <= i < |Children(e)|
        ensures Owning(Children(e)[i], x, index, self, Context(e, i, index, self, owned))
      {
        OwningChild(e, i, x, index, self, owned);
      }
    }
    if OwningHere(e, x, owned) && OwningBelowAll(e, x, index, self, owned) {
      forall path
        ensures PlainAt(e, path, x) && (Occurs(e, path, x) ==> ConsumedAt(e, path, index, self, owned))
      {
        if path != [] && path[0] < |Children(e)| {
          SplitStep(path);
          ConsumedBelow(e, path[0], path[1..], index, self, owned);
          assert Owning(Children(e)[path[0]], x, index, self, Context(e, path[0], index, self, owned));
          assert PlainAt(Children(e)[path[0]], path[1..], x);
          assert Occurs(e, path, x) <==> Occurs(Children(e)[path[0]], path[1..], x);
        }
      }
    }
  }

  lemma OwningChild(e: Expr, i: nat, x: string, index: nat, self: string, owned: bool)
    requires i < |Children(e)| && Owning(e, x, index, self, owned)
    ensures Owning(Children(e)[i], x, index, self, Context(e, i, index, self, owned))
  {
    forall path
      ensures PlainAt(Children(e)[i], path, x)
      ensures Occurs(Children(e)[i], path, x) ==>
        ConsumedAt(Children(e)[i], path, index, self, Context(e, i, index, self, owned))
    {
      AtStep(e, i, path);
      ConsumedBelow(e, i, path, index, self, owned);
      assert PlainAt(e, [i] + path, x);
      assert Occurs(e, [i] + path, x) <==> Occurs(Children(e)[i], path, x);
    }
  }

  ghost predicate EachOwning(cs: seq<Expr>, x: string, index: nat, self: string, owned: bool) {
    forall i :: 0 <= i < |cs| ==> Owning(cs[i], x, index, self, owned)
  }

  lemma EachCons(c: Expr, cs: seq<Expr>, x: string, index: nat, self: string, owned: bool)
    ensures EachOwning([c] + cs, x, index, self, owned)
       <==> Owning(c, x, index, self, owned) && EachOwning(cs, x, index, self, owned)
  {
    var both := [c] + cs;
    assert both[0] == c;
    assert forall i :: 0 <= i < |cs| ==> cs[i] == both[i + 1];
    assert forall i :: 1 <= i < |both| ==> both[i] == cs[i - 1];
  }

  /** Arguments of a call to `callee`, from a position on. */
  ghost predicate ArgsOwning(cs: seq<Expr>, position: nat, x: string, index: nat, self: string, callee: string) {
    forall i :: 0 <= i < |cs| ==> Owning(cs[i], x, index, self, callee == self && position + i == index)
  }

  lemma ArgsCons(c: Expr, cs: seq<Expr>, position: nat, x: string, index: nat, self: string, callee: string)
    ensures ArgsOwning([c] + cs, position, x, index, self, callee)
       <==> Owning(c, x, index, self, callee == self && position == index)
            && ArgsOwning(cs, position + 1, x, index, self, callee)
  {
    var both := [c] + cs;
    assert both[0] == c;
    assert forall i :: 0 <= i < |cs| ==> cs[i] == both[i + 1] && position + 1 + i == position + (i + 1);
    assert forall i :: 1 <= i < |both| ==> both[i] == cs[i - 1] && position + i == position + 1 + (i - 1);
  }

  /** From a position on, all children stand in the same context. */
  ghost predicate Uniform(e: Expr, position: nat, index: nat, self: string, owned: bool, context: bool) {
    forall i: nat :: position <= i ==> Context(e, i, index, self, owned) == context
  }

  /** A first child in one context and the others in another. */
  lemma OwningSplit(
      e: Expr, c: Expr, cs: seq<Expr>, x: string, index: nat, self: string, owned: bool, first: bool, others: bool)
    requires Children(e) == [c] + cs
    requires Context(e, 0, index, self, owned) == first && Uniform(e, 1, index, self, owned, others)
    ensures OwningBelowAll(e, x, index, self, owned)
       <==> Owning(c, x, index, self, first) && EachOwning(cs, x, index, self, others)
  {
    var both := Children(e);
    assert both[0] == c;
    assert forall i :: 0 <= i < |cs| ==> cs[i] == both[i + 1];
    assert forall i :: 1 <= i < |both| ==> both[i] == cs[i - 1];
    if OwningBelowAll(e, x, index, self, owned) {
      forall i | 0 <= i < |cs| ensures Owning(cs[i], x, index, self, others) {
        assert Owning(both[i + 1], x, index, self, Context(e, i + 1, index, self, owned));
      }
    }
  }

  /** All children in one context. */
  lemma OwningEach(e: Expr, x: string, index: nat, self: string, owned: bool, context: bool)
    requires Uniform(e, 0, index, self, owned, context)
    ensures OwningBelowAll(e, x, index, self, owned) <==> EachOwning(Children(e), x, index, self, context)
  {}

  lemma OwningArgs(e: Expr, x: string, index: nat, self: string, owned: bool)
    requires e.Call?
    ensures OwningBelowAll(e, x, index, self, owned)
       <==> ArgsOwning(Listed(e.args), 0, x, index, self, e.callee)
  {
    var cs := Listed(e.args);
    assert Children(e) == cs;
    if OwningBelowAll(e, x, index, self, owned) {
      forall i | 0 <= i < |cs| ensures Owning(cs[i], x, index, self, e.callee == self && 0 + i == index) {
        assert Context(e, i, index, self, owned) == (e.callee == self && 0 + i == index);
        assert Owning(Children(e)[i], x, index, self, Context(e, i, index, self, owned));
      }
    }
    if ArgsOwning(cs, 0, x, index, self, e.callee) {
      forall i | 0 <= i < |cs| ensures Owning(cs[i], x, index, self, Context(e, i, index, self, owned)) {
        assert Context(e, i, index, self, owned) == (e.callee == self && 0 + i == index);
      }
    }
  }

  /** The recursion accepts exactly the terms without joins, positional references and binders
      of the name in which every occurrence is consumed. */
  lemma {:induction false} OwnedExactly(e: Expr, x: string, index: nat, self: string, owned: bool)
    ensures OwnedUses(e, x, index, self, owned) <==> Owning(e, x, index, self, owned)
    decreases e, 1
  {
    OwningBelow(e, x, index, self, owned);
    match e
    case Lit(_) =>
    case Var(_) =>
    case Param(_) =>
    case Unreachable =>
    case Jp(_, _, _) =>
    case Jmp(_, _) =>
    case Prim(_, _) => OwnedExactlyPrim(e, x, index, self, owned);
    case Call(f, es) =>
      OwnedExactlyArgs(es, 0, x, index, self, f);
      OwningArgs(e, x, index, self, owned);
    case If(_, _, _) => OwnedExactlyIf(e, x, index, self, owned);
    case Let(_, v, b) =>
      OwnedExactly(v, x, index, self, false);
      OwnedExactly(b, x, index, self, owned);
      assert Children(e)[0] == v && Children(e)[1] == b;
    case Match(_, _) => OwnedExactlyMatch(e, x, index, self, owned);
  }

  lemma {:induction false} OwnedExactlyIf(e: Expr, x: string, index: nat, self: string, owned: bool)
    requires e.If?
    ensures OwnedUses(e, x, index, self, owned) <==> Owning(e, x, index, self, owned)
    decreases e, 0
  {
    OwningBelow(e, x, index, self, owned);
    OwnedExactly(e.cond, x, index, self, false);
    OwnedExactly(e.yes, x, index, self, owned);
    OwnedExactly(e.no, x, index, self, owned);
    var cs := Children(e);
    assert cs[0] == e.cond && cs[1] == e.yes && cs[2] == e.no;
  }

  lemma {:induction false} OwnedExactlyMatch(e: Expr, x: string, index: nat, self: string, owned: bool)
    requires e.Match?
    ensures OwnedUses(e, x, index, self, owned) <==> Owning(e, x, index, self, owned)
    decreases e, 0
  {
    OwningBelow(e, x, index, self, owned);
    OwnedExactly(e.scrut, x, index, self, false);
    OwnedExactlyBodies(e.alts, x, index, self, owned);
    OwningSplit(e, e.scrut, Bodies(e.alts), x, index, self, owned, false, owned);
  }

  lemma {:induction false} OwnedExactlyPrim(e: Expr, x: string, index: nat, self: string, owned: bool)
    requires e.Prim?
    ensures OwnedUses(e, x, index, self, owned) <==> Owning(e, x, index, self, owned)
    decreases e, 0
  {
    OwningBelow(e, x, index, self, owned);
    if e.op.Append? {
      OwnedExactlyAppend(e, x, index, self, owned);
    } else {
      OwnedExactlyListed(e.args, x, index, self, e.op.Ctor?);
      OwningEach(e, x, index, self, owned, e.op.Ctor?);
    }
  }

  lemma {:induction false} OwnedExactlyAppend(e: Expr, x: string, index: nat, self: string, owned: bool)
    requires e.Prim? && e.op.Append?
    ensures OwnedOperands(e.args, x, index, self) <==> OwningBelowAll(e, x, index, self, owned)
    decreases e.args
  {
    if e.args.Cons? {
      OwnedExactly(e.args.head, x, index, self, true);
      OwnedExactlyListed(e.args.tail, x, index, self, false);
      OwningSplit(e, e.args.head, Listed(e.args.tail), x, index, self, owned, true, false);
    }
  }

  lemma {:induction false} OwnedExactlyListed(es: Exprs, x: string, index: nat, self: string, owned: bool)
    ensures OwnedUsesAll(es, x, index, self, owned) <==> EachOwning(Listed(es), x, index, self, owned)
    decreases es
  {
    if es.Cons? {
      OwnedExactly(es.head, x, index, self, owned);
      OwnedExactlyListed(es.tail, x, index, self, owned);
      EachCons(es.head, Listed(es.tail), x, index, self, owned);
    }
  }

  lemma {:induction false} OwnedExactlyArgs(
      es: Exprs, position: nat, x: string, index: nat, self: string, callee: string)
    ensures OwnedArgs(es, position, x, index, self, callee)
       <==> ArgsOwning(Listed(es), position, x, index, self, callee)
    decreases es
  {
    if es.Cons? {
      OwnedExactly(es.head, x, index, self, callee == self && position == index);
      OwnedExactlyArgs(es.tail, position + 1, x, index, self, callee);
      ArgsCons(es.head, Listed(es.tail), position, x, index, self, callee);
    }
  }

  lemma {:induction false} OwnedExactlyBodies(alts: Alts, x: string, index: nat, self: string, owned: bool)
    ensures OwnedUsesAlts(alts, x, index, self, owned)
       <==> !Binds(alts, x) && EachOwning(Bodies(alts), x, index, self, owned)
    decreases alts
  {
    match alts
    case NoMore =>
    case Default(b) =>
      OwnedExactly(b, x, index, self, owned);
      assert [b][0] == b;
    case Alt(_, _, b, rest) =>
      OwnedExactly(b, x, index, self, owned);
      OwnedExactlyBodies(rest, x, index, self, owned);
      EachCons(b, Bodies(rest), x, index, self, owned);
  }
}
