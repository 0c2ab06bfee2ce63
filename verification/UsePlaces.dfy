/** The counts of `PathUses`, by places.

    A count of two is a pair of occurrences on one path: neither in different branches, nor
    the two operands of one self append, nor a length read ahead of everything else.
    `CountsPlaces` says this of the count the renderer uses, in both directions.
 */
module UsePlaces {
  import opened Ir
  import opened PathUses
  import opened Paths
  import opened Wrappers

  predicate Occurs(e: Expr, path: Path, x: string) {
    At(e, path) == Some(Var(x))
  }

  ghost predicate Present(e: Expr, x: string) {
    exists path :: Occurs(e, path, x)
  }

  /** Different branches of one if or match. */
  predicate Exclusive(e: Expr, p: Path, q: Path)
    decreases |p|
  {
    && p != [] && q != []
    && if p[0] == q[0] then p[0] < |Children(e)| && Exclusive(Children(e)[p[0]], p[1..], q[1..])
       else (e.If? || e.Match?) && p[0] >= 1 && q[0] >= 1
  }

  /** The two operands of `append x x`. */
  predicate Twins(e: Expr, p: Path, q: Path, x: string) {
    p != [] && q != [] && Front(p) == Front(q) && Above(e, p) == Some(Prim(Append, Cons(Var(x), Cons(Var(x), Nil))))
  }

  /** Two occurrences that one path meets. */
  predicate Both(e: Expr, p: Path, q: Path, x: string) {
    p != q && Occurs(e, p, x) && Occurs(e, q, x) && !Exclusive(e, p, q) && !Twins(e, p, q, x)
  }

  ghost predicate Twice(e: Expr, x: string) {
    exists p, q :: Both(e, p, q, x)
  }

  // ---- occurrences, child by child ----

  ghost predicate PresentIn(cs: seq<Expr>, x: string) {
    exists i :: 0 <= i < |cs| && Present(cs[i], x)
  }

  lemma PresentBelow(e: Expr, x: string)
    ensures Present(e, x) <==> e == Var(x) || PresentIn(Children(e), x)
  {
    if path :| Occurs(e, path, x) {
      if path != [] {
        assert Occurs(Children(e)[path[0]], path[1..], x);
      }
    }
    if e == Var(x) {
      assert Occurs(e, [], x);
    }
    if i :| 0 <= i < |Children(e)| && Present(Children(e)[i], x) {
      var path :| Occurs(Children(e)[i], path, x);
      AtStep(e, i, path);
      assert Occurs(e, [i] + path, x);
    }
  }

  lemma PresentCons(c: Expr, cs: seq<Expr>, x: string)
    ensures PresentIn([c] + cs, x) <==> Present(c, x) || PresentIn(cs, x)
  {
    var both := [c] + cs;
    assert both[0] == c;
    assert forall i :: 0 <= i < |cs| ==> cs[i] == both[i + 1];
    assert forall i :: 1 <= i < |both| ==> both[i] == cs[i - 1];
  }

  /** A count of zero: the local does not occur. */
  lemma {:induction false} UsesPresent(e: Expr, x: string)
    ensures VarUses(e, x) > 0 <==> Present(e, x)
    decreases e, 1
  {
    PresentBelow(e, x);
    match e
    case Lit(_) =>
    case Var(_) =>
    case Param(_) =>
    case Unreachable =>
    case Prim(_, es) => UsesListed(es, x);
    case If(c, t, f) =>
      UsesPresent(c, x);
      UsesPresent(t, x);
      UsesPresent(f, x);
      assert Children(e)[0] == c && Children(e)[1] == t && Children(e)[2] == f;
    case Let(_, v, b) =>
      UsesPresent(v, x);
      UsesPresent(b, x);
      assert Children(e)[0] == v && Children(e)[1] == b;
    case Match(s, alts) =>
      UsesPresent(s, x);
      UsesBodies(alts, x);
      PresentCons(s, Bodies(alts), x);
    case Call(_, es) => UsesListed(es, x);
    case Jp(_, _, c) =>
      UsesPresent(c, x);
      assert Children(e)[0] == c;
    case Jmp(_, es) => UsesListed(es, x);
  }

  lemma {:induction false} UsesListed(es: Exprs, x: string)
    ensures VarUsesAll(es, x) > 0 <==> PresentIn(Listed(es), x)
    decreases es
  {
    if es.Cons? {
      UsesPresent(es.head, x);
      UsesListed(es.tail, x);
      PresentCons(es.head, Listed(es.tail), x);
    }
  }

  lemma {:induction false} UsesBodies(alts: Alts, x: string)
    ensures VarUsesAlts(alts, x) > 0 <==> PresentIn(Bodies(alts), x)
    decreases alts
  {
    match alts
    case NoMore =>
    case Default(b) =>
      UsesPresent(b, x);
      assert [b][0] == b;
    case Alt(_, _, b, rest) =>
      UsesPresent(b, x);
      UsesBodies(rest, x);
      PresentCons(b, Bodies(rest), x);
  }

  // ---- pairs, child by child ----

  /** Children that one path may visit both of. */
  predicate Together(e: Expr, i: nat, j: nat) {
    i != j && ((e.If? || e.Match?) ==> i == 0 || j == 0)
  }

  lemma PairInside(e: Expr, i: nat, p: Path, q: Path, x: string)
    requires i < |Children(e)|
    ensures Both(e, [i] + p, [i] + q, x) <==> Both(Children(e)[i], p, q, x)
  {
    AtStep(e, i, p);
    AtStep(e, i, q);
    assert ([i] + p)[1..] == p && ([i] + q)[1..] == q;
    if p != [] && q != [] {
      FrontStep(i, p);
      FrontStep(i, q);
      AtStep(e, i, Front(p));
      assert [i] + Front(p) == [i] + Front(q) <==> Front(p) == Front(q) by {
        assert ([i] + Front(p))[1..] == Front(p) && ([i] + Front(q))[1..] == Front(q);
      }
    } else if p != q {
      // One of the two is the child itself, a variable, which has nothing below it.
      assert Occurs(Children(e)[i], [], x) ==> Children(e)[i] == Var(x);
    }
  }

  lemma PairAcross(e: Expr, i: nat, j: nat, p: Path, q: Path, x: string)
    requires i < |Children(e)| && j < |Children(e)| && i != j && !SelfAppend(e, x)
    ensures Both(e, [i] + p, [j] + q, x) <==>
      Together(e, i, j) && Occurs(Children(e)[i], p, x) && Occurs(Children(e)[j], q, x)
  {
    AtStep(e, i, p);
    AtStep(e, j, q);
    assert ([i] + p)[0] == i && ([j] + q)[0] == j;
    NoTwinsAcross(e, i, j, p, q, x);
  }

  lemma NoTwinsAcross(e: Expr, i: nat, j: nat, p: Path, q: Path, x: string)
    requires i != j && !SelfAppend(e, x)
    ensures !Twins(e, [i] + p, [j] + q, x)
  {
    assert |Front([i] + p)| == |p| && |Front([j] + q)| == |q|;
    if p != [] && q != [] {
      FrontStep(i, p);
      FrontStep(j, q);
      assert ([i] + Front(p))[0] != ([j] + Front(q))[0];
    }
  }

  lemma VarAlone(x: string, path: Path)
    ensures At(Var(x), path).Some? <==> path == []
  {
    assert Children(Var(x)) == [];
  }

  lemma BothInside(e: Expr, p: Path, q: Path, x: string)
    requires Both(e, p, q, x)
    ensures p != [] && q != []
  {
    VarAlone(x, p);
    VarAlone(x, q);
  }

  ghost predicate Across(e: Expr, x: string) {
    exists i, j :: AcrossAt(e, i, j, x)
  }

  ghost predicate AcrossAt(e: Expr, i: int, j: int, x: string) {
    && 0 <= i < |Children(e)| && 0 <= j < |Children(e)| && Together(e, i, j)
    && Present(Children(e)[i], x) && Present(Children(e)[j], x)
  }

  ghost predicate TwiceIn(cs: seq<Expr>, x: string) {
    exists i :: 0 <= i < |cs| && Twice(cs[i], x)
  }

  lemma TwiceCons(c: Expr, cs: seq<Expr>, x: string)
    ensures TwiceIn([c] + cs, x) <==> Twice(c, x) || TwiceIn(cs, x)
  {
    var both := [c] + cs;
    assert both[0] == c;
    assert forall i :: 0 <= i < |cs| ==> cs[i] == both[i + 1];
    assert forall i :: 1 <= i < |both| ==> both[i] == cs[i - 1];
  }

  lemma TwiceBelow(e: Expr, x: string)
    requires !SelfAppend(e, x)
    ensures Twice(e, x) <==> TwiceIn(Children(e), x) || Across(e, x)
  {
    if p, q :| Both(e, p, q, x) {
      SomewhereBelow(e, p, q, x);
    }
    if i :| 0 <= i < |Children(e)| && Twice(Children(e)[i], x) {
      var p, q :| Both(Children(e)[i], p, q, x);
      PairInside(e, i, p, q, x);
    }
    if i, j :| AcrossAt(e, i, j, x) {
      var p :| Occurs(Children(e)[i], p, x);
      var q :| Occurs(Children(e)[j], q, x);
      PairAcross(e, i, j, p, q, x);
    }
  }

  lemma SomewhereBelow(e: Expr, p: Path, q: Path, x: string)
    requires !SelfAppend(e, x) && Both(e, p, q, x)
    ensures TwiceIn(Children(e), x) || Across(e, x)
  {
    BothInside(e, p, q, x);
    SplitStep(p);
    SplitStep(q);
    if p[0] == q[0] {
      PairInside(e, p[0], p[1..], q[1..], x);
    } else {
      PairAcross(e, p[0], q[0], p[1..], q[1..], x);
      assert AcrossAt(e, p[0], q[0], x);
    }
  }

  lemma SelfAppendOnce(e: Expr, x: string)
    requires SelfAppend(e, x)
    ensures !Twice(e, x) && Present(e, x)
  {
    var cs := Children(e);
    assert Listed(Cons(Var(x), Nil)) == [Var(x)];
    assert cs == [Var(x)] + [Var(x)];
    assert Occurs(e, [0], x);
    forall p, q
      ensures !Both(e, p, q, x)
    {
      if p != [] && q != [] {
        VarAlone(x, p[1..]);
        VarAlone(x, q[1..]);
        SplitStep(p);
        SplitStep(q);
      }
    }
  }

  // ---- the sequential count ----

  /** Two uses within strict operands, or one each in two of them. */
  ghost predicate TwoIn(cs: seq<Expr>, x: string) {
    TwiceIn(cs, x) || exists i, j :: PairAt(cs, i, j, x)
  }

  ghost predicate PairAt(cs: seq<Expr>, i: int, j: int, x: string) {
    0 <= i < j < |cs| && Present(cs[i], x) && Present(cs[j], x)
  }

  lemma TwoCons(c: Expr, cs: seq<Expr>, x: string)
    ensures TwoIn([c] + cs, x) <==> Twice(c, x) || TwoIn(cs, x) || (Present(c, x) && PresentIn(cs, x))
  {
    var both := [c] + cs;
    TwiceCons(c, cs, x);
    if i, j :| PairAt(both, i, j, x) {
      PairTail(c, cs, i, j, x);
    }
    if i, j :| PairAt(cs, i, j, x) {
      PairShift(c, cs, i, j, x);
    }
    if k :| 0 <= k < |cs| && Present(cs[k], x) {
      PairHead(c, cs, k, x);
    }
  }

  lemma PairTail(c: Expr, cs: seq<Expr>, i: nat, j: nat, x: string)
    requires PairAt([c] + cs, i, j, x)
    ensures Present(cs[j - 1], x) && (if i == 0 then Present(c, x) else PairAt(cs, i - 1, j - 1, x))
  {
    var both := [c] + cs;
    assert both[j] == cs[j - 1] && both[i] == if i == 0 then c else cs[i - 1];
  }

  lemma PairShift(c: Expr, cs: seq<Expr>, i: nat, j: nat, x: string)
    requires PairAt(cs, i, j, x)
    ensures PairAt([c] + cs, i + 1, j + 1, x)
  {
    var both := [c] + cs;
    assert both[i + 1] == cs[i] && both[j + 1] == cs[j];
  }

  lemma PairHead(c: Expr, cs: seq<Expr>, k: nat, x: string)
    requires k < |cs| && Present(cs[k], x)
    ensures Present(c, x) ==> PairAt([c] + cs, 0, k + 1, x)
  {
    var both := [c] + cs;
    assert both[0] == c && both[k + 1] == cs[k];
  }

  /** Where no child excludes another. */
  lemma TwiceStrict(e: Expr, x: string)
    requires !SelfAppend(e, x) && !e.If? && !e.Match?
    ensures Twice(e, x) <==> TwoIn(Children(e), x)
  {
    TwiceBelow(e, x);
    var cs := Children(e);
    if i, j :| PairAt(cs, i, j, x) {
      assert AcrossAt(e, i, j, x);
    }
    if i, j :| AcrossAt(e, i, j, x) {
      assert if i < j then PairAt(cs, i, j, x) else PairAt(cs, j, i, x);
    }
  }

  /** Where the branches exclude each other, but not the condition. */
  lemma TwiceBranches(e: Expr, head: Expr, branches: seq<Expr>, x: string)
    requires (e.If? || e.Match?) && Children(e) == [head] + branches
    ensures Twice(e, x) <==> Twice(head, x) || TwiceIn(branches, x) || (Present(head, x) && PresentIn(branches, x))
  {
    TwiceBelow(e, x);
    TwiceCons(head, branches, x);
    var cs := Children(e);
    assert cs[0] == head && forall i :: 1 <= i < |cs| ==> cs[i] == branches[i - 1];
    assert forall i :: 0 <= i < |branches| ==> branches[i] == cs[i + 1];
    if i, j :| AcrossAt(e, i, j, x) {
      assert Present(head, x);
      assert Present(branches[if i == 0 then j - 1 else i - 1], x);
    }
    if Present(head, x) && PresentIn(branches, x) {
      var k :| 0 <= k < |branches| && Present(branches[k], x);
      assert AcrossAt(e, 0, k + 1, x);
    }
  }

  /** The sequential count is above one exactly when one path meets two occurrences. */
  lemma {:induction false} SequentialTwice(e: Expr, x: string)
    ensures SequentialUses(e, x) > 1 <==> Twice(e, x)
    decreases e, 1
  {
    SequentialZero(e, x);
    UsesPresent(e, x);
    if SelfAppend(e, x) {
      SelfAppendOnce(e, x);
    } else {
      match e
      case If(c, t, f) => SequentialTwiceIf(e, x);
      case Match(s, alts) => SequentialTwiceMatch(e, x);
      case Let(_, v, b) => SequentialTwicePair(e, v, b, x);
      case Prim(_, es) =>
        TwiceStrict(e, x);
        SequentialListed(es, x);
      case Call(_, es) =>
        TwiceStrict(e, x);
        SequentialListed(es, x);
      case Jmp(_, es) =>
        TwiceStrict(e, x);
        SequentialListed(es, x);
      case Jp(_, _, c) =>
        TwiceStrict(e, x);
        SequentialTwice(c, x);
        assert Children(e)[0] == c;
      case _ => TwiceStrict(e, x);
    }
  }

  lemma {:induction false} SequentialTwicePair(e: Expr, v: Expr, b: Expr, x: string)
    requires e.Let? && v == e.value && b == e.body
    ensures SequentialUses(e, x) > 1 <==> Twice(e, x)
    decreases e, 0
  {
    TwiceStrict(e, x);
    SequentialTwice(v, x);
    SequentialTwice(b, x);
    Counts(v, x);
    Counts(b, x);
    assert Children(e) == [v] + [b];
    TwoCons(v, [b], x);
    PresentCons(b, [], x);
    TwoCons(b, [], x);
  }

  lemma Counts(e: Expr, x: string)
    ensures SequentialUses(e, x) > 0 <==> Present(e, x)
  {
    SequentialZero(e, x);
    UsesPresent(e, x);
  }

  lemma {:induction false} SequentialTwiceIf(e: Expr, x: string)
    requires e.If?
    ensures SequentialUses(e, x) > 1 <==> Twice(e, x)
    decreases e, 0
  {
    var If(c, t, f) := e;
    SequentialTwice(c, x);
    SequentialTwice(t, x);
    SequentialTwice(f, x);
    Counts(c, x);
    Counts(t, x);
    Counts(f, x);
    assert Children(e) == [c] + ([t] + [f]);
    TwiceBranches(e, c, [t] + [f], x);
    TwiceCons(t, [f], x);
    TwiceCons(f, [], x);
    PresentCons(t, [f], x);
    PresentCons(f, [], x);
    assert [f] + [] == [f];
  }

  lemma {:induction false} SequentialTwiceMatch(e: Expr, x: string)
    requires e.Match?
    ensures SequentialUses(e, x) > 1 <==> Twice(e, x)
    decreases e, 0
  {
    SequentialTwice(e.scrut, x);
    Counts(e.scrut, x);
    SequentialBodies(e.alts, x);
    TwiceBranches(e, e.scrut, Bodies(e.alts), x);
  }

  lemma {:induction false} SequentialListed(es: Exprs, x: string)
    ensures SequentialUsesAll(es, x) > 1 <==> TwoIn(Listed(es), x)
    ensures SequentialUsesAll(es, x) > 0 <==> PresentIn(Listed(es), x)
    decreases es
  {
    if es.Cons? {
      SequentialTwice(es.head, x);
      Counts(es.head, x);
      SequentialListed(es.tail, x);
      TwoCons(es.head, Listed(es.tail), x);
      PresentCons(es.head, Listed(es.tail), x);
    }
  }

  lemma {:induction false} SequentialBodies(alts: Alts, x: string)
    ensures SequentialUsesAlts(alts, x) > 1 <==> TwiceIn(Bodies(alts), x)
    ensures SequentialUsesAlts(alts, x) > 0 <==> PresentIn(Bodies(alts), x)
    decreases alts
  {
    match alts
    case NoMore =>
    case Default(b) =>
      SequentialTwice(b, x);
      Counts(b, x);
      assert [b][0] == b;
    case Alt(_, _, b, rest) =>
      SequentialTwice(b, x);
      Counts(b, x);
      SequentialBodies(rest, x);
      TwiceCons(b, Bodies(rest), x);
      PresentCons(b, Bodies(rest), x);
  }

  // ---- the count the renderer uses ----

  /** A let value that reads no more than the length. */
  ghost predicate Quiet(v: Expr, x: string) {
    v == Prim(Length, Cons(Var(x), Nil)) || !Present(v, x)
  }

  /** Nothing before child `i` can have used the local. */
  ghost predicate OpenStep(e: Expr, i: nat, x: string) {
    match e
    case Let(_, v, _) => i == 1 && Quiet(v, x)
    case If(c, _, _) => i >= 1 && !Present(c, x)
    case Match(s, _) => i >= 1 && !Present(s, x)
    case _ => false
  }

  ghost predicate OpenAt(e: Expr, path: Path, x: string)
    decreases |path|
  {
    path == [] ||
    (var s := Above(e, path); s.Some? && OpenStep(s.value, Last(path), x) && OpenAt(e, Front(path), x))
  }

  /** The let at `q` reads the length at `path`. */
  ghost predicate AheadOf(e: Expr, q: Path, path: Path, x: string) {
    path == q + [0, 0] && OpenAt(e, q, x) && ReadsHere(e, q, x)
  }

  /** The operand of a length read that a let makes before any use. */
  ghost predicate Ahead(e: Expr, path: Path, x: string) {
    exists q :: AheadOf(e, q, path, x)
  }

  predicate ReadsHere(e: Expr, q: Path, x: string) {
    var s := At(e, q); s.Some? && s.value.Let? && s.value.value == Prim(Length, Cons(Var(x), Nil))
  }

  /** An occurrence that counts. */
  ghost predicate Counted(e: Expr, path: Path, x: string) {
    Occurs(e, path, x) && !Ahead(e, path, x)
  }

  ghost predicate CountedBoth(e: Expr, p: Path, q: Path, x: string) {
    Both(e, p, q, x) && !Ahead(e, p, x) && !Ahead(e, q, x)
  }

  lemma {:induction false} OpenBelow(e: Expr, i: nat, path: Path, x: string)
    requires i < |Children(e)|
    ensures OpenAt(e, [i] + path, x) <==> OpenStep(e, i, x) && OpenAt(Children(e)[i], path, x)
    decreases |path|
  {
    if path == [] {
      assert Front([i] + path) == [] && Last([i] + path) == i;
    } else {
      FrontStep(i, path);
      AtStep(e, i, Front(path));
      OpenBelow(e, i, Front(path), x);
    }
  }

  /** Being ahead, child by child: only an open child has reads ahead, and a let its own. */
  lemma AheadBelow(e: Expr, i: nat, path: Path, x: string)
    requires i < |Children(e)|
    ensures Ahead(e, [i] + path, x) <==>
      (OpenStep(e, i, x) && Ahead(Children(e)[i], path, x)) || ([i] + path == [0, 0] && ReadsHere(e, [], x))
  {
    if q :| AheadOf(e, q, [i] + path, x) {
      AheadDown(e, i, path, q, x);
    }
    if OpenStep(e, i, x) && Ahead(Children(e)[i], path, x) {
      var q :| AheadOf(Children(e)[i], q, path, x);
      AheadUp(e, i, path, q, x);
    }
    if [i] + path == [0, 0] && ReadsHere(e, [], x) {
      assert [] + [0, 0] == [0, 0];
      assert AheadOf(e, [], [i] + path, x);
    }
  }

  lemma AheadDown(e: Expr, i: nat, path: Path, q: Path, x: string)
    requires i < |Children(e)| && AheadOf(e, q, [i] + path, x)
    ensures (OpenStep(e, i, x) && Ahead(Children(e)[i], path, x)) || ([i] + path == [0, 0] && ReadsHere(e, [], x))
  {
    if q == [] {
      assert q + [0, 0] == [0, 0];
    } else {
      assert ([i] + path)[1..] == path && (q + [0, 0])[1..] == q[1..] + [0, 0];
      assert ([i] + path)[0] == (q + [0, 0])[0] == q[0];
      SplitStep(q);
      OpenBelow(e, i, q[1..], x);
      AtStep(e, i, q[1..]);
      assert AheadOf(Children(e)[i], q[1..], path, x);
    }
  }

  lemma AheadUp(e: Expr, i: nat, path: Path, q: Path, x: string)
    requires i < |Children(e)| && OpenStep(e, i, x) && AheadOf(Children(e)[i], q, path, x)
    ensures Ahead(e, [i] + path, x)
  {
    OpenBelow(e, i, q, x);
    AtStep(e, i, q);
    assert [i] + path == ([i] + q) + [0, 0];
    assert AheadOf(e, [i] + q, [i] + path, x);
  }

  // ---- child by child, with reads ahead ----

  ghost predicate CountedIn(e: Expr, x: string) {
    exists path :: Counted(e, path, x)
  }

  ghost predicate CountedTwice(e: Expr, x: string) {
    exists p, q :: CountedBoth(e, p, q, x)
  }

  /** In a term that starts with a use, no read is ahead. */
  lemma NothingAhead(e: Expr, x: string)
    requires !ReadsHere(e, [], x) && forall i :: 0 <= i < |Children(e)| ==> !OpenStep(e, i, x)
    ensures CountedIn(e, x) <==> Present(e, x)
    ensures CountedTwice(e, x) <==> Twice(e, x)
  {
    forall path
      ensures !Ahead(e, path, x)
    {
      if q :| AheadOf(e, q, path, x) {
        if q != [] {
          SplitStep(q);
          OpenSteps(e, q, x);
        }
      }
    }
    if path :| Occurs(e, path, x) {
      assert Counted(e, path, x);
    }
    if p, q :| Both(e, p, q, x) {
      assert CountedBoth(e, p, q, x);
    }
  }

  lemma {:induction false} OpenSteps(e: Expr, path: Path, x: string)
    requires path != [] && OpenAt(e, path, x)
    ensures path[0] < |Children(e)| ==> OpenStep(e, path[0], x)
    decreases |path|
  {
    if path[0] < |Children(e)| {
      SplitStep(path);
      OpenBelow(e, path[0], path[1..], x);
    }
  }

  /** Below an open step occurrences count as they do in the child. */
  lemma OpenChild(e: Expr, i: nat, x: string)
    requires i >= 1 && i < |Children(e)| && OpenStep(e, i, x)
    ensures forall path :: Counted(e, [i] + path, x) <==> Counted(Children(e)[i], path, x)
    ensures forall p, q :: CountedBoth(e, [i] + p, [i] + q, x) <==> CountedBoth(Children(e)[i], p, q, x)
  {
    forall path
      ensures Ahead(e, [i] + path, x) <==> Ahead(Children(e)[i], path, x)
      ensures Occurs(e, [i] + path, x) <==> Occurs(Children(e)[i], path, x)
    {
      assert ([i] + path)[0] == i;
      AheadBelow(e, i, path, x);
      AtStep(e, i, path);
    }
    forall p, q
      ensures Both(e, [i] + p, [i] + q, x) <==> Both(Children(e)[i], p, q, x)
    {
      PairInside(e, i, p, q, x);
    }
  }

  /** The head of a branching, or a leading value, has nothing that counts. */
  ghost predicate Skipped(e: Expr, x: string) {
    match e
    case Let(_, v, _) => Quiet(v, x)
    case If(c, _, _) => !Present(c, x)
    case Match(s, _) => !Present(s, x)
    case _ => false
  }

  lemma CountedBelow(e: Expr, path: Path, x: string)
    requires Skipped(e, x) && Counted(e, path, x)
    ensures path != [] && 1 <= path[0] < |Children(e)| && OpenStep(e, path[0], x)
    ensures Counted(Children(e)[path[0]], path[1..], x)
  {
    SplitStep(path);
    var head := Children(e)[0];
    if path[0] == 0 {
      AtStep(e, 0, path[1..]);
      assert Occurs(head, path[1..], x);
      assert Present(head, x);
      ReadAlone(e, path[1..], x);
      AheadBelow(e, 0, path[1..], x);
    }
    OpenChild(e, path[0], x);
    assert Counted(e, [path[0]] + path[1..], x);
  }

  /** The only occurrence in a length read is its operand. */
  lemma ReadAlone(e: Expr, path: Path, x: string)
    requires Skipped(e, x) && Occurs(Children(e)[0], path, x)
    ensures ReadsHere(e, [], x) && [0] + path == [0, 0]
  {
    var v := Children(e)[0];
    assert Present(v, x);
    assert e.Let? && v == e.value == Prim(Length, Cons(Var(x), Nil));
    assert Children(v) == [Var(x)];
    SplitStep(path);
    VarAlone(x, path[1..]);
    assert path == [0] && [0] + [0] == [0, 0];
  }

  ghost predicate AnyCounted(cs: seq<Expr>, x: string) {
    exists i :: 0 <= i < |cs| && CountedIn(cs[i], x)
  }

  ghost predicate AnyTwice(cs: seq<Expr>, x: string) {
    exists i :: 0 <= i < |cs| && CountedTwice(cs[i], x)
  }

  lemma AnyCons(c: Expr, cs: seq<Expr>, x: string)
    ensures AnyCounted([c] + cs, x) <==> CountedIn(c, x) || AnyCounted(cs, x)
    ensures AnyTwice([c] + cs, x) <==> CountedTwice(c, x) || AnyTwice(cs, x)
  {
    var both := [c] + cs;
    assert both[0] == c;
    assert forall i :: 0 <= i < |cs| ==> cs[i] == both[i + 1];
    assert forall i :: 1 <= i < |both| ==> both[i] == cs[i - 1];
  }

  /** Only what comes after the head counts. */
  lemma SkippedCounts(e: Expr, head: Expr, rest: seq<Expr>, x: string)
    requires Skipped(e, x) && Children(e) == [head] + rest
    ensures CountedIn(e, x) <==> AnyCounted(rest, x)
    ensures CountedTwice(e, x) <==> AnyTwice(rest, x)
  {
    if path :| Counted(e, path, x) {
      CountedBelow(e, path, x);
      assert rest[path[0] - 1] == Children(e)[path[0]];
    }
    if p, q :| CountedBoth(e, p, q, x) {
      CountedSame(e, p, q, x);
      assert rest[p[0] - 1] == Children(e)[p[0]];
    }
    if i :| 0 <= i < |rest| && CountedIn(rest[i], x) {
      ChildCounted(e, head, rest, i, x);
    }
    if i :| 0 <= i < |rest| && CountedTwice(rest[i], x) {
      ChildTwice(e, head, rest, i, x);
    }
  }

  lemma ChildCounted(e: Expr, head: Expr, rest: seq<Expr>, i: nat, x: string)
    requires Skipped(e, x) && Children(e) == [head] + rest && i < |rest| && CountedIn(rest[i], x)
    ensures CountedIn(e, x)
  {
    var path :| Counted(rest[i], path, x);
    assert Children(e)[i + 1] == rest[i];
    OpenChild(e, i + 1, x);
    assert Counted(e, [i + 1] + path, x);
  }

  lemma ChildTwice(e: Expr, head: Expr, rest: seq<Expr>, i: nat, x: string)
    requires Skipped(e, x) && Children(e) == [head] + rest && i < |rest| && CountedTwice(rest[i], x)
    ensures CountedTwice(e, x)
  {
    var p, q :| CountedBoth(rest[i], p, q, x);
    assert Children(e)[i + 1] == rest[i];
    OpenChild(e, i + 1, x);
    assert CountedBoth(e, [i + 1] + p, [i + 1] + q, x);
  }

  /** Two that count are in the same branch. */
  lemma CountedSame(e: Expr, p: Path, q: Path, x: string)
    requires Skipped(e, x) && CountedBoth(e, p, q, x)
    ensures p != [] && 1 <= p[0] < |Children(e)| && CountedTwice(Children(e)[p[0]], x)
  {
    CountedBelow(e, p, x);
    CountedBelow(e, q, x);
    SplitStep(p);
    SplitStep(q);
    assert p[0] == q[0];
    OpenChild(e, p[0], x);
    assert CountedBoth(e, [p[0]] + p[1..], [p[0]] + q[1..], x);
    assert CountedTwice(Children(e)[p[0]], x);
  }

  /** The renderer's count: none, one, or a pair on one path. */
  lemma {:induction false} CountsPlaces(e: Expr, x: string)
    ensures PathUses.PathUses(e, x) > 0 <==> CountedIn(e, x)
    ensures PathUses.PathUses(e, x) > 1 <==> CountedTwice(e, x)
    decreases e
  {
    if Leading(e, x) {
      UsesPresent(e.value, x);
      SkippedCounts(e, e.value, [e.body], x);
      CountsPlaces(e.body, x);
      AnyOne(e.body, x);
    } else if e.If? && VarUses(e.cond, x) == 0 {
      UsesPresent(e.cond, x);
      SkippedCounts(e, e.cond, [e.yes] + [e.no], x);
      CountsPlaces(e.yes, x);
      CountsPlaces(e.no, x);
      AnyCons(e.yes, [e.no], x);
      AnyOne(e.no, x);
    } else if e.Match? && VarUses(e.scrut, x) == 0 {
      UsesPresent(e.scrut, x);
      SkippedCounts(e, e.scrut, Bodies(e.alts), x);
      CountsBodies(e.alts, x);
    } else {
      StartsWithUse(e, x);
      NothingAhead(e, x);
      SequentialTwice(e, x);
      Counts(e, x);
    }
  }

  lemma AnyOne(c: Expr, x: string)
    ensures AnyCounted([c], x) <==> CountedIn(c, x)
    ensures AnyTwice([c], x) <==> CountedTwice(c, x)
  {
    assert [c][0] == c;
  }

  lemma StartsWithUse(e: Expr, x: string)
    requires !Leading(e, x) && !(e.If? && VarUses(e.cond, x) == 0) && !(e.Match? && VarUses(e.scrut, x) == 0)
    ensures !ReadsHere(e, [], x) && forall i :: 0 <= i < |Children(e)| ==> !OpenStep(e, i, x)
  {
    match e
    case Let(_, v, _) => UsesPresent(v, x);
    case If(c, _, _) => UsesPresent(c, x);
    case Match(s, _) => UsesPresent(s, x);
    case _ =>
  }

  lemma {:induction false} CountsBodies(alts: Alts, x: string)
    ensures PathUsesAlts(alts, x) > 0 <==> AnyCounted(Bodies(alts), x)
    ensures PathUsesAlts(alts, x) > 1 <==> AnyTwice(Bodies(alts), x)
    decreases alts
  {
    match alts
    case NoMore =>
    case Default(b) =>
      CountsPlaces(b, x);
      AnyOne(b, x);
    case Alt(_, _, b, rest) =>
      CountsPlaces(b, x);
      CountsBodies(rest, x);
      AnyCons(b, Bodies(rest), x);
  }
}
