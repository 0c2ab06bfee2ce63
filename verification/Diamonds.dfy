/** What diamond factoring leaves behind (`joins.rs`, `factor_tail_diamonds`).

    A diamond is a branching term that always ends in a jump to one label with one
    argument.  `FactorComplete` says that a factored term has none where the pass may
    hoist: in tail places, to labels in scope.
 */
module Diamonds {
  import opened Ir
  import opened JoinFactoring
  import opened Paths
  import opened Wrappers

  // ---- diamonds, by places ----

  predicate JumpTo(e: Expr, l: string) {
    e.Jmp? && e.target == l && Len(e.args) == 1
  }

  /** Control leaves the node through a child. */
  predicate Passes(e: Expr) {
    e.Let? || e.If? || (e.Match? && !e.alts.NoMore?)
  }

  /** Control reaches the place last: only branches and let bodies lead there. */
  predicate EndAt(e: Expr, path: Path)
    decreases |path|
  {
    path != [] ==>
      var s := Above(e, path); s.Some? && Yields(s.value, Last(path)) && EndAt(e, Front(path))
  }

  predicate EndsWell(e: Expr, path: Path, l: string) {
    var s := At(e, path);
    s.Some? && EndAt(e, path) ==> Passes(s.value) || JumpTo(s.value, l)
  }

  /** However control leaves the term, it jumps to the label. */
  ghost predicate EndsIn(e: Expr, l: string) {
    forall path :: EndsWell(e, path, l)
  }

  ghost predicate Diamond(e: Expr, l: string) {
    (e.If? || e.Match?) && EndsIn(e, l)
  }

  /** The place is a tail place: continuations are, and what ends one is. */
  predicate TailPlace(e: Expr, path: Path, tail: bool)
    decreases |path|
  {
    if path == [] then tail
    else
      var s := Above(e, path);
      s.Some? && (s.value.Jp? || (Yields(s.value, Last(path)) && TailPlace(e, Front(path), tail)))
  }

  /** The labels in scope: a join is, in the body of the let that declares it. */
  function Scope(e: Expr, path: Path, available: set<string>): set<string>
    decreases |path|
  {
    if path == [] then available
    else
      var s := Above(e, path);
      var outer := Scope(e, Front(path), available);
      if s.Some? && s.value.Let? && s.value.value.Jp? && Last(path) == 1 then outer + {s.value.value.target} else outer
  }

  ghost predicate DiamondAt(e: Expr, path: Path, l: string, available: set<string>, tail: bool) {
    var s := At(e, path);
    s.Some? && TailPlace(e, path, tail) && l in Scope(e, path, available) && Diamond(s.value, l)
  }

  ghost predicate NoDiamonds(e: Expr, available: set<string>, tail: bool) {
    forall path, l :: !DiamondAt(e, path, l, available, tail)
  }

  // ---- where a term ends, child by child ----

  lemma {:induction false} EndBelow(e: Expr, i: nat, path: Path)
    requires i < |Children(e)|
    ensures EndAt(e, [i] + path) <==> Yields(e, i) && EndAt(Children(e)[i], path)
    decreases |path|
  {
    if path == [] {
      assert Front([i] + path) == [] && Last([i] + path) == i;
    } else {
      FrontStep(i, path);
      AtStep(e, i, Front(path));
      EndBelow(e, i, Front(path));
    }
  }

  ghost predicate ChildrenEnd(e: Expr, l: string) {
    forall i :: 0 <= i < |Children(e)| && Yields(e, i) ==> EndsIn(Children(e)[i], l)
  }

  lemma EndsBelow(e: Expr, l: string)
    ensures EndsIn(e, l) <==> (Passes(e) || JumpTo(e, l)) && ChildrenEnd(e, l)
  {
    if EndsIn(e, l) {
      assert EndsWell(e, [], l);
      forall i | 0 <= i < |Children(e)| && Yields(e, i) ensures EndsIn(Children(e)[i], l) {
        forall path ensures EndsWell(Children(e)[i], path, l) {
          AtStep(e, i, path);
          EndBelow(e, i, path);
          assert EndsWell(e, [i] + path, l);
        }
      }
    }
    if (Passes(e) || JumpTo(e, l)) && ChildrenEnd(e, l) {
      forall path ensures EndsWell(e, path, l) {
        if path != [] && path[0] < |Children(e)| {
          SplitStep(path);
          EndBelow(e, path[0], path[1..]);
          if Yields(e, path[0]) {
            assert EndsWell(Children(e)[path[0]], path[1..], l);
          }
        }
      }
    }
  }

  ghost predicate EachEnds(cs: seq<Expr>, l: string) {
    forall i :: 0 <= i < |cs| ==> EndsIn(cs[i], l)
  }

  /** The label the pass looks for is the one every end jumps to. */
  lemma {:induction false} DestinationExactly(e: Expr, l: string)
    ensures TailDestination(e) == Some(l) <==> EndsIn(e, l)
    decreases e
  {
    EndsBelow(e, l);
    match e
    case Lit(_) =>
    case Var(_) =>
    case Param(_) =>
    case Unreachable =>
    case Prim(_, _) =>
    case Call(_, _) =>
    case Jp(_, _, _) =>
    case Jmp(_, es) => assert Len(es) == 1 <==> es.Cons? && es.tail.Nil?;
    case Let(_, v, b) =>
      DestinationExactly(b, l);
      assert Children(e)[1] == b;
    case If(c, t, f) =>
      DestinationExactly(t, l);
      DestinationExactly(f, l);
      assert Children(e)[1] == t && Children(e)[2] == f;
    case Match(s, alts) =>
      DestinationExactlyAlts(alts, l);
      var cs, bodies := Children(e), Bodies(alts);
      assert forall i :: 0 <= i < |bodies| ==> bodies[i] == cs[i + 1];
      assert forall i :: 1 <= i < |cs| ==> cs[i] == bodies[i - 1];
  }

  lemma {:induction false} DestinationExactlyAlts(alts: Alts, l: string)
    ensures TailDestinationAlts(alts) == Some(l) <==> !alts.NoMore? && EachEnds(Bodies(alts), l)
    decreases alts
  {
    match alts
    case NoMore =>
    case Default(b) =>
      DestinationExactly(b, l);
      assert [b][0] == b;
    case Alt(_, _, b, rest) =>
      DestinationExactly(b, l);
      DestinationExactlyAlts(rest, l);
      var cs, others := Bodies(alts), Bodies(rest);
      assert cs[0] == b;
      assert forall i :: 0 <= i < |others| ==> others[i] == cs[i + 1];
      assert forall i :: 1 <= i < |cs| ==> cs[i] == others[i - 1];
  }

  // ---- diamonds, child by child ----

  predicate TailBelow(e: Expr, i: nat, tail: bool) {
    e.Jp? || (Yields(e, i) && tail)
  }

  function ScopeBelow(e: Expr, i: nat, available: set<string>): set<string> {
    if e.Let? && e.value.Jp? && i == 1 then available + {e.value.target} else available
  }

  lemma {:induction false} PlaceBelow(e: Expr, i: nat, path: Path, available: set<string>, tail: bool)
    requires i < |Children(e)|
    ensures TailPlace(e, [i] + path, tail) <==> TailPlace(Children(e)[i], path, TailBelow(e, i, tail))
    ensures Scope(e, [i] + path, available) == Scope(Children(e)[i], path, ScopeBelow(e, i, available))
    decreases |path|
  {
    if path == [] {
      assert Front([i] + path) == [] && Last([i] + path) == i;
    } else {
      FrontStep(i, path);
      AtStep(e, i, Front(path));
      PlaceBelow(e, i, Front(path), available, tail);
    }
  }

  ghost predicate ClearHere(e: Expr, available: set<string>, tail: bool) {
    tail ==> forall l :: l in available ==> !Diamond(e, l)
  }

  ghost predicate ClearBelow(e: Expr, available: set<string>, tail: bool) {
    forall i :: 0 <= i < |Children(e)| ==>
      NoDiamonds(Children(e)[i], ScopeBelow(e, i, available), TailBelow(e, i, tail))
  }

  lemma NoneBelow(e: Expr, available: set<string>, tail: bool)
    ensures NoDiamonds(e, available, tail) <==> ClearHere(e, available, tail) && ClearBelow(e, available, tail)
  {
    if NoDiamonds(e, available, tail) {
      forall l | tail && l in available ensures !Diamond(e, l) {
        assert !DiamondAt(e, [], l, available, tail);
      }
      forall i | 0 <= i < |Children(e)|
        ensures NoDiamonds(Children(e)[i], ScopeBelow(e, i, available), TailBelow(e, i, tail))
      {
        NoneInChild(e, i, available, tail);
      }
    }
    if ClearHere(e, available, tail) && ClearBelow(e, available, tail) {
      forall path, l ensures !DiamondAt(e, path, l, available, tail) {
        if path != [] && path[0] < |Children(e)| {
          SplitStep(path);
          PlaceBelow(e, path[0], path[1..], available, tail);
          assert !DiamondAt(Children(e)[path[0]], path[1..], l,
                            ScopeBelow(e, path[0], available), TailBelow(e, path[0], tail));
        }
      }
    }
  }

  lemma NoneInChild(e: Expr, i: nat, available: set<string>, tail: bool)
    requires i < |Children(e)| && NoDiamonds(e, available, tail)
    ensures NoDiamonds(Children(e)[i], ScopeBelow(e, i, available), TailBelow(e, i, tail))
  {
    forall path, l
      ensures !DiamondAt(Children(e)[i], path, l, ScopeBelow(e, i, available), TailBelow(e, i, tail))
    {
      AtStep(e, i, path);
      PlaceBelow(e, i, path, available, tail);
      assert !DiamondAt(e, [i] + path, l, available, tail);
    }
  }

  lemma {:induction false} TailMore(e: Expr, path: Path)
    requires TailPlace(e, path, false)
    ensures TailPlace(e, path, true)
    decreases |path|
  {
    if !Above(e, path).value.Jp? {
      TailMore(e, Front(path));
    }
  }

  /** Outside tail places there is less to look for. */
  lemma NoneElsewhere(e: Expr, available: set<string>, tail: bool)
    requires NoDiamonds(e, available, tail)
    ensures NoDiamonds(e, available, false)
  {
    forall path, l ensures !DiamondAt(e, path, l, available, false) {
      if TailPlace(e, path, false) {
        TailMore(e, path);
        assert !DiamondAt(e, path, l, available, tail);
      }
    }
  }

  ghost predicate EachNone(cs: seq<Expr>, available: set<string>, tail: bool) {
    forall i :: 0 <= i < |cs| ==> NoDiamonds(cs[i], available, tail)
  }

  lemma EachCons(c: Expr, cs: seq<Expr>, available: set<string>, tail: bool)
    ensures EachNone([c] + cs, available, tail) <==> NoDiamonds(c, available, tail) && EachNone(cs, available, tail)
  {
    var both := [c] + cs;
    assert both[0] == c;
    assert forall i :: 0 <= i < |cs| ==> cs[i] == both[i + 1];
    assert forall i :: 1 <= i < |both| ==> both[i] == cs[i - 1];
  }

  lemma EachElsewhere(cs: seq<Expr>, available: set<string>, tail: bool)
    requires EachNone(cs, available, tail)
    ensures EachNone(cs, available, false)
  {
    forall i | 0 <= i < |cs| ensures NoDiamonds(cs[i], available, false) {
      NoneElsewhere(cs[i], available, tail);
    }
  }

  // ---- the four kinds of node with children in different places ----

  lemma IfBelow(c: Expr, t: Expr, f: Expr, available: set<string>, tail: bool)
    ensures ClearBelow(If(c, t, f), available, tail)
       <==> NoDiamonds(c, available, false) && NoDiamonds(t, available, tail) && NoDiamonds(f, available, tail)
  {
    var e := If(c, t, f);
    assert Children(e)[0] == c && Children(e)[1] == t && Children(e)[2] == f;
  }

  lemma LetBelow(x: string, v: Expr, b: Expr, available: set<string>, tail: bool)
    ensures ClearBelow(Let(x, v, b), available, tail)
       <==> NoDiamonds(v, available, false)
            && NoDiamonds(b, if v.Jp? then available + {v.target} else available, tail)
  {
    var e := Let(x, v, b);
    assert Children(e)[0] == v && Children(e)[1] == b;
  }

  lemma MatchBelow(s: Expr, alts: Alts, available: set<string>, tail: bool)
    ensures ClearBelow(Match(s, alts), available, tail)
       <==> NoDiamonds(s, available, false) && EachNone(Bodies(alts), available, tail)
  {
    var e := Match(s, alts);
    var cs, bodies := Children(e), Bodies(alts);
    assert cs[0] == s;
    assert forall i :: 0 <= i < |bodies| ==> bodies[i] == cs[i + 1];
    assert forall i :: 1 <= i < |cs| ==> cs[i] == bodies[i - 1];
    if ClearBelow(e, available, tail) {
      forall i | 0 <= i < |bodies| ensures NoDiamonds(bodies[i], available, tail) {
        assert NoDiamonds(cs[i + 1], ScopeBelow(e, i + 1, available), TailBelow(e, i + 1, tail));
      }
    }
  }

  /** Operands, and the arguments of a jump or a call, are nowhere in a tail place. */
  lemma OperandsBelow(e: Expr, available: set<string>, tail: bool)
    requires e.Prim? || e.Call? || e.Jmp?
    ensures NoDiamonds(e, available, tail) <==> EachNone(Listed(e.args), available, false)
  {
    NoneBelow(e, available, tail);
    var cs := Listed(e.args);
    assert Children(e) == cs;
    if NoDiamonds(e, available, tail) {
      forall i | 0 <= i < |cs| ensures NoDiamonds(cs[i], available, false) {
        assert NoDiamonds(cs[i], ScopeBelow(e, i, available), TailBelow(e, i, tail));
      }
    }
  }

  // ---- factoring ----

  /** The selected argument has no diamond that the branches did not have. */
  lemma {:induction false} TakeTailNone(e: Expr, l: string, available: set<string>)
    requires TailDestination(e) == Some(l) && NoDiamonds(e, available, false)
    ensures NoDiamonds(TakeTail(e, l), available, false)
    decreases e
  {
    NoneBelow(e, available, false);
    NoneBelow(TakeTail(e, l), available, false);
    match e
    case Jmp(_, es) =>
      OperandsBelow(e, available, false);
      assert Listed(es)[0] == es.head;
    case Let(x, v, b) =>
      var inner := if v.Jp? then available + {v.target} else available;
      LetBelow(x, v, b, available, false);
      LetBelow(x, v, TakeTail(b, l), available, false);
      TakeTailNone(b, l, inner);
    case If(c, t, f) =>
      IfBelow(c, t, f, available, false);
      IfBelow(c, TakeTail(t, l), TakeTail(f, l), available, false);
      TakeTailNone(t, l, available);
      TakeTailNone(f, l, available);
    case Match(s, alts) =>
      MatchBelow(s, alts, available, false);
      MatchBelow(s, TakeTailAlts(alts, l), available, false);
      TakeTailNoneAlts(alts, l, available);
  }

  lemma {:induction false} TakeTailNoneAlts(alts: Alts, l: string, available: set<string>)
    requires TailDestinationAlts(alts) == Some(l) && EachNone(Bodies(alts), available, false)
    ensures EachNone(Bodies(TakeTailAlts(alts, l)), available, false)
    decreases alts
  {
    match alts
    case Default(b) =>
      assert Bodies(alts)[0] == b;
      TakeTailNone(b, l, available);
    case Alt(_, _, b, rest) =>
      EachCons(b, Bodies(rest), available, false);
      TakeTailNone(b, l, available);
      if rest.NoMore? {
        EachCons(TakeTail(b, l), [], available, false);
      } else {
        TakeTailNoneAlts(rest, l, available);
        EachCons(TakeTail(b, l), Bodies(TakeTailAlts(rest, l)), available, false);
      }
  }

  /** Hoisting removes the one diamond its branches may form. */
  lemma HoistNone(e: Expr, available: set<string>, tail: bool)
    requires (e.If? || e.Match?) && ClearBelow(e, available, tail)
    ensures NoDiamonds(Hoist(e, available, tail), available, tail)
  {
    if Hoist(e, available, tail) == e {
      forall l | tail && l in available ensures !Diamond(e, l) {
        DestinationExactly(e, l);
      }
      NoneBelow(e, available, tail);
    } else {
      var l := TailDestination(e).value;
      BranchesElsewhere(e, available, tail);
      NoneBelow(e, available, false);
      TakeTailNone(e, l, available);
      var jump := Jmp(l, Cons(TakeTail(e, l), Nil));
      assert Listed(jump.args) == [TakeTail(e, l)];
      OperandsBelow(jump, available, tail);
    }
  }

  lemma BranchesElsewhere(e: Expr, available: set<string>, tail: bool)
    requires (e.If? || e.Match?) && ClearBelow(e, available, tail)
    ensures ClearBelow(e, available, false)
  {
    if e.If? {
      IfBelow(e.cond, e.yes, e.no, available, tail);
      IfBelow(e.cond, e.yes, e.no, available, false);
      NoneElsewhere(e.yes, available, tail);
      NoneElsewhere(e.no, available, tail);
    } else {
      MatchBelow(e.scrut, e.alts, available, tail);
      MatchBelow(e.scrut, e.alts, available, false);
      EachElsewhere(Bodies(e.alts), available, tail);
    }
  }

  /** A factored term has no diamond in a tail place with its label in scope. */
  lemma {:induction false} FactorComplete(e: Expr, available: set<string>, tail: bool)
    ensures NoDiamonds(Factor(e, available, tail), available, tail)
    decreases e
  {
    var r := Factor(e, available, tail);
    match e
    case Lit(_) => NoneBelow(e, available, tail);
    case Var(_) => NoneBelow(e, available, tail);
    case Param(_) => NoneBelow(e, available, tail);
    case Unreachable => NoneBelow(e, available, tail);
    case Prim(_, es) =>
      FactorCompleteAll(es, available);
      OperandsBelow(r, available, tail);
    case Call(_, es) =>
      FactorCompleteAll(es, available);
      OperandsBelow(r, available, tail);
    case Jmp(_, es) =>
      FactorCompleteAll(es, available);
      OperandsBelow(r, available, tail);
    case Jp(_, _, c) =>
      FactorComplete(c, available, true);
      NoneBelow(r, available, tail);
      assert Children(r) == [Factor(c, available, true)];
    case Let(x, v, b) =>
      FactorComplete(v, available, false);
      FactorComplete(b, if v.Jp? then available + {v.target} else available, tail);
      NoneBelow(r, available, tail);
      LetBelow(x, r.value, r.body, available, tail);
    case If(c, t, f) =>
      var c', t', f' := Factor(c, available, false), Factor(t, available, tail), Factor(f, available, tail);
      FactorComplete(c, available, false);
      FactorComplete(t, available, tail);
      FactorComplete(f, available, tail);
      IfBelow(c', t', f', available, tail);
      HoistNone(If(c', t', f'), available, tail);
    case Match(s, alts) =>
      var s', alts' := Factor(s, available, false), FactorAlts(alts, available, tail);
      FactorComplete(s, available, false);
      FactorCompleteAlts(alts, available, tail);
      MatchBelow(s', alts', available, tail);
      HoistNone(Match(s', alts'), available, tail);
  }

  lemma {:induction false} FactorCompleteAll(es: Exprs, available: set<string>)
    ensures EachNone(Listed(FactorAll(es, available)), available, false)
    decreases es
  {
    if es.Cons? {
      FactorComplete(es.head, available, false);
      FactorCompleteAll(es.tail, available);
      EachCons(Factor(es.head, available, false), Listed(FactorAll(es.tail, available)), available, false);
    }
  }

  lemma {:induction false} FactorCompleteAlts(alts: Alts, available: set<string>, tail: bool)
    ensures EachNone(Bodies(FactorAlts(alts, available, tail)), available, tail)
    decreases alts
  {
    match alts
    case NoMore =>
    case Default(b) => FactorComplete(b, available, tail);
    case Alt(_, _, b, rest) =>
      FactorComplete(b, available, tail);
      FactorCompleteAlts(rest, available, tail);
      EachCons(Factor(b, available, tail), Bodies(FactorAlts(rest, available, tail)), available, tail);
  }

  /** Nothing else is rewritten: a term without such diamonds stays as it is. */
  lemma {:induction false} FactorIdle(e: Expr, available: set<string>, tail: bool)
    requires NoDiamonds(e, available, tail)
    ensures Factor(e, available, tail) == e
    decreases e
  {
    NoneBelow(e, available, tail);
    match e
    case Lit(_) =>
    case Var(_) =>
    case Param(_) =>
    case Unreachable =>
    case Prim(_, es) =>
      OperandsBelow(e, available, tail);
      FactorIdleAll(es, available);
    case Call(_, es) =>
      OperandsBelow(e, available, tail);
      FactorIdleAll(es, available);
    case Jmp(_, es) =>
      OperandsBelow(e, available, tail);
      FactorIdleAll(es, available);
    case Jp(_, _, c) =>
      assert Children(e)[0] == c;
      FactorIdle(c, available, true);
    case Let(x, v, b) =>
      LetBelow(x, v, b, available, tail);
      FactorIdle(v, available, false);
      FactorIdle(b, if v.Jp? then available + {v.target} else available, tail);
    case If(c, t, f) =>
      IfBelow(c, t, f, available, tail);
      FactorIdle(c, available, false);
      FactorIdle(t, available, tail);
      FactorIdle(f, available, tail);
      HoistIdle(e, available, tail);
    case Match(s, alts) =>
      MatchBelow(s, alts, available, tail);
      FactorIdle(s, available, false);
      FactorIdleAlts(alts, available, tail);
      HoistIdle(e, available, tail);
  }

  lemma HoistIdle(e: Expr, available: set<string>, tail: bool)
    requires ClearHere(e, available, tail)
    ensures Hoist(e, available, tail) == e
  {
    var d := TailDestination(e);
    if d.Some? {
      DestinationExactly(e, d.value);
    }
  }

  lemma {:induction false} FactorIdleAll(es: Exprs, available: set<string>)
    requires EachNone(Listed(es), available, false)
    ensures FactorAll(es, available) == es
    decreases es
  {
    if es.Cons? {
      EachCons(es.head, Listed(es.tail), available, false);
      FactorIdle(es.head, available, false);
      FactorIdleAll(es.tail, available);
    }
  }

  lemma {:induction false} FactorIdleAlts(alts: Alts, available: set<string>, tail: bool)
    requires EachNone(Bodies(alts), available, tail)
    ensures FactorAlts(alts, available, tail) == alts
    decreases alts
  {
    match alts
    case NoMore =>
    case Default(b) =>
      assert Bodies(alts)[0] == b;
      FactorIdle(b, available, tail);
    case Alt(_, _, b, rest) =>
      EachCons(b, Bodies(rest), available, tail);
      FactorIdle(b, available, tail);
      FactorIdleAlts(rest, available, tail);
  }
}
