/** Self tail calls lowered to a loop (`tail_calls.rs`).

    `Planner.Visit` decides when a definition may become a loop and which formals the
    back edges reassign.  `Tail` is one turn of the emitted loop; `RunLoop` is the loop,
    proved to give the outcome of the recursive definition for every argument.
 */
module TailCalls {
  import opened Ir
  import opened Semantics
  import opened Wrappers
  import opened Paths

  /** `let x = value; x`, which stands for `value` itself. */
  predicate Returned(e: Expr) {
    e.Let? && e.body == Var(e.name)
  }

  predicate Unchanged(arg: Expr, formal: string) {
    arg == Var(formal)
  }

  // ---- the plan ----

  datatype Plan = Plan(name: string, params: seq<string>, borrowed: seq<bool>, changed: seq<bool>) {
    predicate Valid() {
      |borrowed| == |changed| == |params|
    }
  }

  /** Self calls only in tail position, with every formal; a formal some back edge gives a
      new value is not borrowed and is marked as changed. */
  predicate Lowers(e: Expr, tail: bool, p: Plan)
    requires p.Valid()
  {
    if Returned(e) then Lowers(e.value, tail, p) else
    match e
    case Lit(_) => true
    case Var(_) => true
    case Param(_) => true
    case Prim(_, es) => LowersAll(es, p)
    case If(c, t, f) => Lowers(c, false, p) && Lowers(t, tail, p) && Lowers(f, tail, p)
    case Let(_, v, b) => Lowers(v, false, p) && Lowers(b, tail, p)
    case Match(s, alts) => Lowers(s, false, p) && LowersAlts(alts, tail, p)
    case Call(f, es) =>
      if f == p.name then tail && Len(es) == |p.params| && LowersArgs(es, 0, p) else LowersAll(es, p)
    case Jp(_, _, c) => Lowers(c, false, p)
    case Jmp(_, es) => LowersAll(es, p)
    case Unreachable => true
  }

  predicate LowersAll(es: Exprs, p: Plan)
    requires p.Valid()
  {
    match es
    case Nil => true
    case Cons(e, tail) => Lowers(e, false, p) && LowersAll(tail, p)
  }

  predicate LowersAlts(alts: Alts, tail: bool, p: Plan)
    requires p.Valid()
  {
    match alts
    case NoMore => true
    case Default(b) => Lowers(b, tail, p)
    case Alt(_, _, b, rest) => Lowers(b, tail, p) && LowersAlts(rest, tail, p)
  }

  predicate LowersArgs(es: Exprs, i: nat, p: Plan)
    requires p.Valid() && i + Len(es) == |p.params|
  {
    match es
    case Nil => true
    case Cons(e, tail) =>
      && (Unchanged(e, p.params[i]) || (!p.borrowed[i] && p.changed[i]))
      && Lowers(e, false, p)
      && LowersArgs(tail, i + 1, p)
  }

  predicate NoSelfCall(e: Expr, name: string) {
    && !(e.Call? && e.callee == name)
    && (forall c :: c in Children(e) ==> NoSelfCall(c, name))
  }

  predicate NoSelfCalls(cs: seq<Expr>, name: string) {
    forall c :: c in cs ==> NoSelfCall(c, name)
  }

  lemma ChildrenOf(e: Expr, name: string)
    ensures e.If? ==> Children(e) == [e.cond] + ([e.yes] + [e.no])
    ensures e.Let? ==> Children(e) == [e.value] + [e.body]
    ensures e.Match? ==> Children(e) == [e.scrut] + Bodies(e.alts)
    ensures forall c, cs :: NoSelfCalls([c] + cs, name) <==> NoSelfCall(c, name) && NoSelfCalls(cs, name)
    ensures forall c :: NoSelfCalls([c], name) <==> NoSelfCall(c, name)
    ensures e.Jp? ==> Children(e) == [e.cont]
  {
    forall c, cs
      ensures NoSelfCalls([c] + cs, name) <==> NoSelfCall(c, name) && NoSelfCalls(cs, name)
    {
      assert ([c] + cs)[0] == c;
      assert forall d :: d in [c] + cs <==> d == c || d in cs;
    }
  }

  ghost predicate Below(a: seq<bool>, b: seq<bool>) {
    |a| == |b| && forall i :: 0 <= i < |a| && a[i] ==> b[i]
  }

  lemma {:induction false} LowersMore(e: Expr, tail: bool, p: Plan, changed: seq<bool>)
    requires p.Valid() && Below(p.changed, changed) && Lowers(e, tail, p)
    ensures Lowers(e, tail, p.(changed := changed))
    decreases e
  {
    if Returned(e) {
      LowersMore(e.value, tail, p, changed);
    } else {
      match e
      case Lit(_) =>
      case Var(_) =>
      case Param(_) =>
      case Unreachable =>
      case Prim(_, es) => LowersMoreAll(es, p, changed);
      case If(c, t, f) =>
        LowersMore(c, false, p, changed);
        LowersMore(t, tail, p, changed);
        LowersMore(f, tail, p, changed);
      case Let(_, v, b) =>
        LowersMore(v, false, p, changed);
        LowersMore(b, tail, p, changed);
      case Match(s, alts) =>
        LowersMore(s, false, p, changed);
        LowersMoreAlts(alts, tail, p, changed);
      case Call(f, es) =>
        if f == p.name {
          LowersMoreArgs(es, 0, p, changed);
        } else {
          LowersMoreAll(es, p, changed);
        }
      case Jp(_, _, c) => LowersMore(c, false, p, changed);
      case Jmp(_, es) => LowersMoreAll(es, p, changed);
    }
  }

  lemma {:induction false} LowersMoreAll(es: Exprs, p: Plan, changed: seq<bool>)
    requires p.Valid() && Below(p.changed, changed) && LowersAll(es, p)
    ensures LowersAll(es, p.(changed := changed))
    decreases es
  {
    match es
    case Nil =>
    case Cons(e, tail) =>
      LowersMore(e, false, p, changed);
      LowersMoreAll(tail, p, changed);
  }

  lemma {:induction false} LowersMoreAlts(alts: Alts, tail: bool, p: Plan, changed: seq<bool>)
    requires p.Valid() && Below(p.changed, changed) && LowersAlts(alts, tail, p)
    ensures LowersAlts(alts, tail, p.(changed := changed))
    decreases alts
  {
    match alts
    case NoMore =>
    case Default(b) => LowersMore(b, tail, p, changed);
    case Alt(_, _, b, rest) =>
      LowersMore(b, tail, p, changed);
      LowersMoreAlts(rest, tail, p, changed);
  }

  lemma {:induction false} LowersMoreArgs(es: Exprs, i: nat, p: Plan, changed: seq<bool>)
    requires p.Valid() && Below(p.changed, changed) && i + Len(es) == |p.params| && LowersArgs(es, i, p)
    ensures LowersArgs(es, i, p.(changed := changed))
    decreases es
  {
    match es
    case Nil =>
    case Cons(e, tail) =>
      LowersMore(e, false, p, changed);
      LowersMoreArgs(tail, i + 1, p, changed);
  }

  // ---- the plan, by places in the body ----

  /** From a node in tail position to child `i`: branches and let bodies, and the value of a
      let that returns its own variable. */
  predicate TailStep(e: Expr, i: nat) {
    match e
    case If(_, _, _) => i >= 1
    case Match(_, _) => i >= 1
    case Let(x, _, b) => i == 1 || b == Var(x)
    case _ => false
  }

  predicate TailAt(e: Expr, path: Path)
    decreases |path|
  {
    path == [] ||
    (var s := Above(e, path); s.Some? && TailStep(s.value, Last(path)) && TailAt(e, Front(path)))
  }

  predicate SelfCallAt(e: Expr, path: Path, name: string) {
    var s := At(e, path); s.Some? && s.value.Call? && s.value.callee == name
  }

  function ArgumentsAt(e: Expr, path: Path, name: string): seq<Expr>
    requires SelfCallAt(e, path, name)
  {
    Children(At(e, path).value)
  }

  /** One argument per formal; those that are not the formal itself are not borrowed, and are
      marked. */
  predicate Hands(args: seq<Expr>, p: Plan)
    requires p.Valid()
  {
    && |args| == |p.params|
    && forall i :: 0 <= i < |args| && args[i] != Var(p.params[i]) ==> !p.borrowed[i] && p.changed[i]
  }

  ghost predicate AllTail(e: Expr, tail: bool, p: Plan)
    requires p.Valid()
  {
    forall path :: SelfCallAt(e, path, p.name) ==>
      tail && TailAt(e, path) && Hands(ArgumentsAt(e, path, p.name), p)
  }

  ghost predicate EachTail(cs: seq<Expr>, tail: bool, p: Plan)
    requires p.Valid()
  {
    forall i :: 0 <= i < |cs| ==> AllTail(cs[i], tail, p)
  }

  lemma EachCons(c: Expr, cs: seq<Expr>, tail: bool, p: Plan)
    requires p.Valid()
    ensures EachTail([c] + cs, tail, p) <==> AllTail(c, tail, p) && EachTail(cs, tail, p)
  {
    var both := [c] + cs;
    assert both[0] == c;
    assert forall i :: 0 <= i < |cs| ==> cs[i] == both[i + 1];
    assert forall i :: 1 <= i < |both| ==> both[i] == cs[i - 1];
  }

  /** Arguments for the formals from `k` on. */
  predicate HandsFrom(args: seq<Expr>, k: nat, p: Plan)
    requires p.Valid() && k + |args| == |p.params|
  {
    forall i :: 0 <= i < |args| && args[i] != Var(p.params[k + i]) ==> !p.borrowed[k + i] && p.changed[k + i]
  }

  lemma HandsCons(c: Expr, args: seq<Expr>, k: nat, p: Plan)
    requires p.Valid() && k + 1 + |args| == |p.params|
    ensures HandsFrom([c] + args, k, p) <==>
      (c == Var(p.params[k]) || (!p.borrowed[k] && p.changed[k])) && HandsFrom(args, k + 1, p)
  {
    var both := [c] + args;
    assert both[0] == c;
    assert forall i :: 0 <= i < |args| ==> args[i] == both[i + 1] && k + 1 + i == k + (i + 1);
    assert forall i :: 1 <= i < |both| ==> both[i] == args[i - 1];
  }

  lemma {:induction false} TailBelow(e: Expr, i: nat, path: Path)
    requires i < |Children(e)|
    ensures TailAt(e, [i] + path) <==> TailStep(e, i) && TailAt(Children(e)[i], path)
    decreases |path|
  {
    if path == [] {
      assert Front([i] + path) == [] && Last([i] + path) == i;
    } else {
      FrontStep(i, path);
      AtStep(e, i, Front(path));
      TailBelow(e, i, Front(path));
    }
  }

  /** Node by node: the term itself, and its children. */
  lemma AllTailBelow(e: Expr, tail: bool, p: Plan)
    requires p.Valid()
    ensures AllTail(e, tail, p) <==> HandsHere(e, tail, p) && TailBelowAll(e, tail, p)
  {
    if AllTail(e, tail, p) {
      assert At(e, []) == Some(e);
      assert e.Call? && e.callee == p.name ==> SelfCallAt(e, [], p.name);
      forall i, path | 0 <= i < |Children(e)| && SelfCallAt(Children(e)[i], path, p.name)
        ensures tail && TailStep(e, i) && TailAt(Children(e)[i], path)
        ensures Hands(ArgumentsAt(Children(e)[i], path, p.name), p)
      {
        AtStep(e, i, path);
        TailBelow(e, i, path);
        assert SelfCallAt(e, [i] + path, p.name);
      }
    }
    if HandsHere(e, tail, p) && TailBelowAll(e, tail, p) {
      forall path | SelfCallAt(e, path, p.name)
        ensures tail && TailAt(e, path) && Hands(ArgumentsAt(e, path, p.name), p)
      {
        if path != [] {
          SplitStep(path);
          AtStep(e, path[0], path[1..]);
          TailBelow(e, path[0], path[1..]);
          assert SelfCallAt(Children(e)[path[0]], path[1..], p.name);
        }
      }
    }
  }

  predicate HandsHere(e: Expr, tail: bool, p: Plan)
    requires p.Valid()
  {
    e.Call? && e.callee == p.name ==> tail && Hands(Children(e), p)
  }

  ghost predicate TailBelowAll(e: Expr, tail: bool, p: Plan)
    requires p.Valid()
  {
    forall i :: 0 <= i < |Children(e)| ==> AllTail(Children(e)[i], tail && TailStep(e, i), p)
  }

  /** Strict nodes have no child in tail position. */
  lemma StrictBelow(e: Expr, tail: bool, p: Plan)
    requires p.Valid() && !e.If? && !e.Let? && !e.Match?
    ensures TailBelowAll(e, tail, p) <==> EachTail(Children(e), false, p)
  {
    assert forall i: nat :: (tail && TailStep(e, i)) == false;
  }

  /** The planner's recursion says that every self call stands in tail position. */
  lemma {:induction false} LowersExactly(e: Expr, tail: bool, p: Plan)
    requires p.Valid()
    ensures Lowers(e, tail, p) <==> AllTail(e, tail, p)
    decreases e, 1
  {
    AllTailBelow(e, tail, p);
    match e
    case Lit(_) =>
    case Var(_) =>
    case Param(_) =>
    case Unreachable =>
    case Prim(_, es) =>
      StrictBelow(e, tail, p);
      LowersListed(es, p);
    case If(_, _, _) => LowersIf(e, tail, p);
    case Let(_, _, _) => LowersLet(e, tail, p);
    case Match(_, _) => LowersMatch(e, tail, p);
    case Call(_, _) => LowersCall(e, tail, p);
    case Jp(_, _, c) =>
      LowersExactly(c, false, p);
      assert Children(e)[0] == c;
    case Jmp(_, es) =>
      StrictBelow(e, tail, p);
      LowersListed(es, p);
  }

  lemma {:induction false} LowersIf(e: Expr, tail: bool, p: Plan)
    requires p.Valid() && e.If?
    ensures Lowers(e, tail, p) <==> AllTail(e, tail, p)
    decreases e, 0
  {
    AllTailBelow(e, tail, p);
    LowersExactly(e.cond, false, p);
    LowersExactly(e.yes, tail, p);
    LowersExactly(e.no, tail, p);
    var cs := Children(e);
    assert cs[0] == e.cond && cs[1] == e.yes && cs[2] == e.no;
  }

  lemma {:induction false} LowersLet(e: Expr, tail: bool, p: Plan)
    requires p.Valid() && e.Let?
    ensures Lowers(e, tail, p) <==> AllTail(e, tail, p)
    decreases e, 0
  {
    var Let(x, v, b) := e;
    AllTailBelow(e, tail, p);
    assert Children(e)[0] == v && Children(e)[1] == b;
    if Returned(e) {
      LowersExactly(v, tail, p);
      AllTailBelow(b, tail, p);
    } else {
      LowersExactly(v, false, p);
      LowersExactly(b, tail, p);
    }
  }

  lemma {:induction false} LowersMatch(e: Expr, tail: bool, p: Plan)
    requires p.Valid() && e.Match?
    ensures Lowers(e, tail, p) <==> AllTail(e, tail, p)
    decreases e, 0
  {
    AllTailBelow(e, tail, p);
    LowersExactly(e.scrut, false, p);
    LowersBodies(e.alts, tail, p);
    ArmsBelow(e, tail, p);
  }

  lemma ArmsBelow(e: Expr, tail: bool, p: Plan)
    requires p.Valid() && e.Match?
    ensures TailBelowAll(e, tail, p) <==> AllTail(e.scrut, false, p) && EachTail(Bodies(e.alts), tail, p)
  {
    var cs, bodies := Children(e), Bodies(e.alts);
    assert cs[0] == e.scrut && !TailStep(e, 0);
    assert forall i :: 0 <= i < |bodies| ==> bodies[i] == cs[i + 1];
    assert forall i :: 1 <= i < |cs| ==> cs[i] == bodies[i - 1];
    if TailBelowAll(e, tail, p) {
      forall i | 0 <= i < |bodies| ensures AllTail(bodies[i], tail, p) {
        assert TailStep(e, i + 1) && AllTail(cs[i + 1], tail && TailStep(e, i + 1), p);
      }
    }
  }

  lemma {:induction false} LowersCall(e: Expr, tail: bool, p: Plan)
    requires p.Valid() && e.Call?
    ensures Lowers(e, tail, p) <==> AllTail(e, tail, p)
    decreases e, 0
  {
    AllTailBelow(e, tail, p);
    StrictBelow(e, tail, p);
    if e.callee == p.name && Len(e.args) == |p.params| {
      LowersHanded(e.args, 0, p);
      assert Hands(Children(e), p) <==> HandsFrom(Listed(e.args), 0, p);
    } else if e.callee != p.name {
      LowersListed(e.args, p);
    }
  }

  lemma {:induction false} LowersListed(es: Exprs, p: Plan)
    requires p.Valid()
    ensures LowersAll(es, p) <==> EachTail(Listed(es), false, p)
    decreases es
  {
    if es.Cons? {
      LowersExactly(es.head, false, p);
      LowersListed(es.tail, p);
      EachCons(es.head, Listed(es.tail), false, p);
    }
  }

  lemma {:induction false} LowersBodies(alts: Alts, tail: bool, p: Plan)
    requires p.Valid()
    ensures LowersAlts(alts, tail, p) <==> EachTail(Bodies(alts), tail, p)
    decreases alts
  {
    match alts
    case NoMore =>
    case Default(b) =>
      LowersExactly(b, tail, p);
      assert [b][0] == b;
    case Alt(_, _, b, rest) =>
      LowersExactly(b, tail, p);
      LowersBodies(rest, tail, p);
      EachCons(b, Bodies(rest), tail, p);
  }

  lemma {:induction false} LowersHanded(es: Exprs, k: nat, p: Plan)
    requires p.Valid() && k + Len(es) == |p.params|
    ensures LowersArgs(es, k, p) <==> EachTail(Listed(es), false, p) && HandsFrom(Listed(es), k, p)
    decreases es
  {
    if es.Cons? {
      LowersExactly(es.head, false, p);
      LowersHanded(es.tail, k + 1, p);
      EachCons(es.head, Listed(es.tail), false, p);
      HandsCons(es.head, Listed(es.tail), k, p);
    }
  }

  /** Some place holds a self call. */
  ghost predicate CallsItself(e: Expr, name: string) {
    exists path :: SelfCallAt(e, path, name)
  }

  lemma {:induction false} SelfCallExactly(e: Expr, name: string)
    ensures NoSelfCall(e, name) <==> !CallsItself(e, name)
    decreases e
  {
    if !NoSelfCall(e, name) {
      if e.Call? && e.callee == name {
        assert SelfCallAt(e, [], name);
      } else {
        var c :| c in Children(e) && !NoSelfCall(c, name);
        var i :| 0 <= i < |Children(e)| && Children(e)[i] == c;
        SelfCallExactly(c, name);
        var path :| SelfCallAt(c, path, name);
        AtStep(e, i, path);
        assert SelfCallAt(e, [i] + path, name);
      }
    }
    if path :| SelfCallAt(e, path, name) {
      if path != [] {
        var c := Children(e)[path[0]];
        assert c in Children(e);
        assert SelfCallAt(c, path[1..], name);
        SelfCallExactly(c, name);
      }
    }
  }

  /** There is a self call, and every one is in tail position and hands over one argument per
      formal, the borrowed formals as they are. */
  ghost predicate Plannable(d: Definition, borrowed: seq<bool>)
    requires |borrowed| == |d.params|
  {
    && CallsItself(d.body, d.name)
    && (forall path :: SelfCallAt(d.body, path, d.name) ==>
          && TailAt(d.body, path) && |ArgumentsAt(d.body, path, d.name)| == |d.params|
          && (forall i :: 0 <= i < |d.params| && borrowed[i] ==>
                ArgumentsAt(d.body, path, d.name)[i] == Var(d.params[i])))
  }

  /** Some self call hands over something else for formal `i`. */
  ghost predicate Reassigned(d: Definition, i: nat)
    requires i < |d.params|
  {
    exists path :: SelfCallAt(d.body, path, d.name)
      && i < |ArgumentsAt(d.body, path, d.name)| && ArgumentsAt(d.body, path, d.name)[i] != Var(d.params[i])
  }

  ghost function Reassignments(d: Definition): (marks: seq<bool>)
    ensures |marks| == |d.params| && forall i :: 0 <= i < |marks| ==> (marks[i] <==> Reassigned(d, i))
  {
    seq(|d.params|, i requires 0 <= i < |d.params| => Reassigned(d, i))
  }

  /** Where a plan exists, the marks of the reassigned formals allow lowering. */
  lemma PlannableLowers(d: Definition, borrowed: seq<bool>)
    requires |borrowed| == |d.params| && Plannable(d, borrowed)
    ensures Lowers(d.body, true, Plan(d.name, d.params, borrowed, Reassignments(d)))
  {
    LowersExactly(d.body, true, Plan(d.name, d.params, borrowed, Reassignments(d)));
  }

  /** Marks that allow lowering mark every reassigned formal, and are a plan if there is a
      self call. */
  lemma LowersPlannable(d: Definition, borrowed: seq<bool>, marks: seq<bool>)
    requires |borrowed| == |marks| == |d.params| && Lowers(d.body, true, Plan(d.name, d.params, borrowed, marks))
    ensures CallsItself(d.body, d.name) ==> Plannable(d, borrowed)
    ensures Below(Reassignments(d), marks)
  {
    LowersExactly(d.body, true, Plan(d.name, d.params, borrowed, marks));
  }

  /** The state one visit of a definition updates. */
  class Planner {
    const name: string
    const params: seq<string>
    const borrowed: seq<bool>
    var changed: seq<bool>
    var found: bool

    function Marked(marks: seq<bool>): Plan {
      Plan(name, params, borrowed, marks)
    }

    ghost predicate Valid()
      reads this
    {
      |borrowed| == |changed| == |params|
    }

    constructor (name: string, params: seq<string>, borrowed: seq<bool>)
      requires |borrowed| == |params|
      ensures Valid() && !found && changed == seq(|params|, _ => false)
      ensures this.name == name && this.params == params && this.borrowed == borrowed
    {
      this.name := name;
      this.params := params;
      this.borrowed := borrowed;
      changed := seq(|params|, _ => false);
      found := false;
    }

    /** On success the marks are the least that extend the old ones and allow lowering;
        on failure no marks do. */
    method Visit(e: Expr, tail: bool) returns (ok: bool)
      requires Valid()
      modifies this`changed, this`found
      ensures Valid() && Below(old(changed), changed)
      ensures ok ==> Lowers(e, tail, Marked(changed))
      ensures ok ==> found == (old(found) || !NoSelfCall(e, name))
      ensures forall marks :: Below(old(changed), marks) && Lowers(e, tail, Marked(marks)) ==>
                ok && Below(changed, marks)
      decreases e, 1
    {
      ChildrenOf(e, name);
      if Returned(e) {
        ok := Visit(e.value, tail);
        return;
      }
      match e
      case If(c, t, f) =>
        ok := Visit(c, false);
        if !ok { return; }
        ghost var before := changed;
        ok := Visit(t, tail);
        if !ok { return; }
        LowersMore(c, false, Marked(before), changed);
        before := changed;
        ok := Visit(f, tail);
        LowersMore(c, false, Marked(before), changed);
        LowersMore(t, tail, Marked(before), changed);
      case Let(_, v, b) =>
        ok := Visit(v, false);
        if !ok { return; }
        ghost var before := changed;
        ok := Visit(b, tail);
        LowersMore(v, false, Marked(before), changed);
      case Match(s, alts) =>
        ok := Visit(s, false);
        if !ok { return; }
        ghost var before := changed;
        ok := VisitAlts(alts, tail);
        LowersMore(s, false, Marked(before), changed);
      case Call(f, es) =>
        if f == name {
          if !tail || Len(es) != |params| { return false; }
          found := true;
          ok := VisitArgs(es, 0);
        } else {
          ok := VisitAll(es);
        }
      case Prim(_, es) =>
        ok := VisitAll(es);
      case Jmp(_, es) =>
        ok := VisitAll(es);
      case Jp(_, _, c) =>
        ok := Visit(c, false);
      case _ =>
        ok := true;
    }

    method VisitAll(es: Exprs) returns (ok: bool)
      requires Valid()
      modifies this`changed, this`found
      ensures Valid() && Below(old(changed), changed)
      ensures ok ==> LowersAll(es, Marked(changed))
      ensures ok ==> found == (old(found) || !NoSelfCalls(Listed(es), name))
      ensures forall marks :: Below(old(changed), marks) && LowersAll(es, Marked(marks)) ==>
                ok && Below(changed, marks)
      decreases es
    {
      ChildrenOf(Unreachable, name);
      match es
      case Nil =>
        ok := true;
      case Cons(e, rest) =>
        ok := Visit(e, false);
        if !ok { return; }
        ghost var before := changed;
        ok := VisitAll(rest);
        LowersMore(e, false, Marked(before), changed);
    }

    method VisitAlts(alts: Alts, tail: bool) returns (ok: bool)
      requires Valid()
      modifies this`changed, this`found
      ensures Valid() && Below(old(changed), changed)
      ensures ok ==> LowersAlts(alts, tail, Marked(changed))
      ensures ok ==> found == (old(found) || !NoSelfCalls(Bodies(alts), name))
      ensures forall marks :: Below(old(changed), marks) && LowersAlts(alts, tail, Marked(marks)) ==>
                ok && Below(changed, marks)
      decreases alts
    {
      ChildrenOf(Unreachable, name);
      match alts
      case NoMore =>
        ok := true;
      case Default(b) =>
        ok := Visit(b, tail);
      case Alt(_, _, b, rest) =>
        ok := Visit(b, tail);
        if !ok { return; }
        ghost var before := changed;
        ok := VisitAlts(rest, tail);
        LowersMore(b, tail, Marked(before), changed);
    }

    method VisitArgs(es: Exprs, i: nat) returns (ok: bool)
      requires Valid() && i + Len(es) == |params|
      modifies this`changed, this`found
      ensures Valid() && Below(old(changed), changed)
      ensures ok ==> LowersArgs(es, i, Marked(changed))
      ensures ok ==> found == (old(found) || !NoSelfCalls(Listed(es), name))
      ensures forall marks :: Below(old(changed), marks) && LowersArgs(es, i, Marked(marks)) ==>
                ok && Below(changed, marks)
      decreases es
    {
      ChildrenOf(Unreachable, name);
      match es
      case Nil =>
        ok := true;
      case Cons(e, rest) =>
        var same := Unchanged(e, params[i]);
        if borrowed[i] && !same { return false; }
        changed := changed[i := changed[i] || !same];
        ok := Visit(e, false);
        if !ok { return; }
        ghost var before := changed;
        ok := VisitArgs(rest, i + 1);
        LowersMore(e, false, Marked(before), changed);
    }
  }

  /** A plan exists exactly when there is a self call and all of them can become back edges;
      it marks exactly the formals that some back edge assigns. */
  method MakePlan(d: Definition, borrowed: seq<bool>) returns (r: Option<Plan>)
    requires |borrowed| == |d.params|
    ensures r.Some? <==> Plannable(d, borrowed)
    ensures r.Some? ==>
      && r.value == Plan(d.name, d.params, borrowed, r.value.changed) && r.value.Valid()
      && forall i :: 0 <= i < |d.params| ==> (r.value.changed[i] <==> Reassigned(d, i))
    ensures r.Some? ==> Lowers(d.body, true, r.value) && !NoSelfCall(d.body, d.name)
    ensures forall marks :: |marks| == |d.params| && Lowers(d.body, true, Plan(d.name, d.params, borrowed, marks)) ==>
              if r.Some? then Below(r.value.changed, marks) else NoSelfCall(d.body, d.name)
  {
    var planner := new Planner(d.name, d.params, borrowed);
    ghost var start := planner.changed;
    var ok := planner.Visit(d.body, true);
    forall marks | |marks| == |d.params| && Lowers(d.body, true, Plan(d.name, d.params, borrowed, marks))
      ensures ok && Below(planner.changed, marks)
    {
      assert Below(start, marks);
      assert Lowers(d.body, true, planner.Marked(marks));
    }
    r := if ok && planner.found then Some(planner.Marked(planner.changed)) else None;
    SelfCallExactly(d.body, d.name);
    if Plannable(d, borrowed) {
      PlannableLowers(d, borrowed);
    }
    if r.Some? {
      LowersPlannable(d, borrowed, planner.changed);
      PlannableLowers(d, borrowed);
    }
  }

  // ---- one turn of the emitted loop ----

  /** Leave the loop with an outcome, or go round with new values of the formals. */
  datatype Turn = Leave(outcome: Outcome) | Again(formals: seq<Value>)

  predicate Discardable(e: Expr) {
    e.Lit? || e == UnitExpr
  }

  /** The operands of the parallel assignment: only changed formals are evaluated. */
  function Operands(m: Machine, calls: nat, formals: seq<Value>, es: Exprs, i: nat, env: Env, p: Plan): (r: Outcomes)
    requires p.Valid() && i + Len(es) == |p.params| == |formals|
    ensures r.Oks? ==> |r.values| == Len(es)
    decreases es
  {
    match es
    case Nil => Oks([])
    case Cons(e, tail) =>
      var o := if p.changed[i] then Eval(m, calls, m.jumps, formals, e, env, NoJoin) else Ok(formals[i]);
      if !o.Ok? then Fails(o) else
      match Operands(m, calls, formals, tail, i + 1, env, p)
      case Fails(o) => Fails(o)
      case Oks(vs) => Oks([o.value] + vs)
  }

  function Tail(m: Machine, calls: nat, formals: seq<Value>, e: Expr, env: Env, p: Plan): (r: Turn)
    requires p.Valid() && |formals| == |p.params|
    ensures r.Again? ==> |r.formals| == |p.params|
    decreases e
  {
    if Returned(e) then Tail(m, calls, formals, e.value, env, p) else
    match e
    case Call(f, es) =>
      if f == p.name && Len(es) == |p.params| then
        match Operands(m, calls, formals, es, 0, env, p)
        case Fails(o) => Leave(o)
        case Oks(vs) => Again(vs)
      else Leave(Eval(m, calls, m.jumps, formals, e, env, NoJoin))
    case If(c, t, f) =>
      var o := Eval(m, calls, m.jumps, formals, c, env, NoJoin);
      if !o.Ok? then Leave(o)
      else if !o.value.Bool? then Leave(Stuck)
      else Tail(m, calls, formals, if o.value.b then t else f, env, p)
    case Let(x, v, b) =>
      if Discardable(v) && V(x) !in Free(b) then Tail(m, calls, formals, b, env, p) else
      var o := Eval(m, calls, m.jumps, formals, v, env, NoJoin);
      if !o.Ok? then Leave(o) else Tail(m, calls, formals, b, env[x := o.value], p)
    case Match(s, alts) =>
      var o := Eval(m, calls, m.jumps, formals, s, env, NoJoin);
      if !o.Ok? then Leave(o) else TailAlts(m, calls, formals, alts, o.value, env, p)
    case _ => Leave(Eval(m, calls, m.jumps, formals, e, env, NoJoin))
  }

  function TailAlts(m: Machine, calls: nat, formals: seq<Value>, alts: Alts, v: Value, env: Env, p: Plan): (r: Turn)
    requires p.Valid() && |formals| == |p.params|
    ensures r.Again? ==> |r.formals| == |p.params|
    decreases alts
  {
    match alts
    case NoMore => Leave(Stuck)
    case Default(b) => Tail(m, calls, formals, b, env, p)
    case Alt(c, bs, b, rest) =>
      var fs := Fields(c, |bs|, v);
      if fs != [] then Tail(m, calls, formals, b, Bind(bs, fs[0], env), p)
      else TailAlts(m, calls, formals, rest, v, env, p)
  }

  /** The arm a value selects goes on with the turn, and may be lowered where the match may. */
  lemma {:induction false} SelectTail(m: Machine, calls: nat, formals: seq<Value>, alts: Alts, v: Value, env: Env,
                                      p: Plan)
    requires p.Valid() && |formals| == |p.params|
    ensures TailAlts(m, calls, formals, alts, v, env, p)
         == match Select(alts, v)
            case None => Leave(Stuck)
            case Some(a) => Tail(m, calls, formals, a.body, Bind(a.binders, a.fields, env), p)
    ensures forall tail :: LowersAlts(alts, tail, p) && Select(alts, v).Some? ==>
        Lowers(Select(alts, v).value.body, tail, p)
  {
    if alts.Alt? && Fields(alts.ctor, |alts.binders|, v) == [] {
      SelectTail(m, calls, formals, alts.rest, v, env, p);
    }
  }

  // ---- a turn does what the recursive body does ----

  /** What the recursive definition does after one turn. */
  function After(m: Machine, calls: nat, p: Plan, t: Turn): Outcome {
    match t
    case Leave(o) => o
    case Again(vs) => if calls == 0 then OutOfFuel else Run(m, calls - 1, p.name, vs)
  }

  /** No binder hides a formal: what normalisation establishes. */
  ghost predicate Unhidden(bound: set<Name>, p: Plan) {
    Distinct(p.params) && forall x :: x in p.params ==> V(x) !in bound
  }

  ghost predicate Holds(formals: seq<Value>, env: Env, p: Plan)
    requires |formals| == |p.params|
  {
    forall i :: 0 <= i < |p.params| ==> p.params[i] in env && env[p.params[i]] == formals[i]
  }

  lemma {:induction false} OperandsEval(m: Machine, calls: nat, formals: seq<Value>, es: Exprs, i: nat, env: Env,
                                        p: Plan)
    requires p.Valid() && i + Len(es) == |p.params| == |formals|
    requires LowersArgs(es, i, p) && Holds(formals, env, p)
    ensures Operands(m, calls, formals, es, i, env, p) == EvalAll(m, calls, m.jumps, formals, es, env, NoJoin)
    decreases es
  {
    match es
    case Nil =>
    case Cons(e, tail) => OperandsEval(m, calls, formals, tail, i + 1, env, p);
  }

  lemma {:induction false} TailEval(m: Machine, calls: nat, formals: seq<Value>, e: Expr, env: Env, p: Plan)
    requires p.Valid() && |formals| == |p.params|
    requires JoinFree(e) && Lowers(e, true, p) && Unhidden(Bound(e), p) && Holds(formals, env, p)
    ensures Eval(m, calls, m.jumps, formals, e, env, NoJoin)
         == After(m, calls, p, Tail(m, calls, formals, e, env, p))
    decreases e
  {
    if Returned(e) {
      TailEval(m, calls, formals, e.value, env, p);
    } else {
      match e
      case Call(f, es) =>
        if f == p.name {
          OperandsEval(m, calls, formals, es, 0, env, p);
        }
      case If(c, t, f) =>
        TailEval(m, calls, formals, t, env, p);
        TailEval(m, calls, formals, f, env, p);
      case Let(x, v, b) =>
        var o := Eval(m, calls, m.jumps, formals, v, env, NoJoin);
        if Discardable(v) && V(x) !in Free(b) {
          DiscardableOk(m, calls, m.jumps, formals, v, env);
          Coincidence(m, calls, m.jumps, formals, b, env, env[x := o.value]);
          TailEval(m, calls, formals, b, env, p);
        } else if o.Ok? {
          TailEval(m, calls, formals, b, env[x := o.value], p);
        }
      case Match(s, alts) =>
        var o := Eval(m, calls, m.jumps, formals, s, env, NoJoin);
        if o.Ok? {
          TailEvalAlts(m, calls, formals, alts, o.value, env, p);
        }
      case _ =>
    }
  }

  lemma DiscardableOk(m: Machine, calls: nat, jumps: nat, actuals: seq<Value>, e: Expr, env: Env)
    requires Discardable(e)
    ensures Eval(m, calls, jumps, actuals, e, env, NoJoin).Ok?
  {
    assert EvalAll(m, calls, jumps, actuals, Nil, env, NoJoin) == Oks([]);
  }

  lemma {:induction false} TailEvalAlts(m: Machine, calls: nat, formals: seq<Value>, alts: Alts, v: Value, env: Env,
                                        p: Plan)
    requires p.Valid() && |formals| == |p.params|
    requires JoinFreeAlts(alts) && LowersAlts(alts, true, p) && Unhidden(BoundAlts(alts), p) && Holds(formals, env, p)
    ensures EvalAlts(m, calls, m.jumps, formals, alts, v, env, NoJoin)
         == After(m, calls, p, TailAlts(m, calls, formals, alts, v, env, p))
    decreases alts
  {
    match alts
    case NoMore =>
    case Default(b) => TailEval(m, calls, formals, b, env, p);
    case Alt(c, bs, b, rest) =>
      var fs := Fields(c, |bs|, v);
      if fs != [] {
        BindKeys(bs, fs[0], env);
        TailEval(m, calls, formals, b, Bind(bs, fs[0], env), p);
      } else {
        TailEvalAlts(m, calls, formals, rest, v, env, p);
      }
  }

  /** The plan fits a normalised, join-free definition. */
  ghost predicate Planned(m: Machine, p: Plan) {
    && p.Valid()
    && p.name in m.defs
    && var d := m.defs[p.name];
      && d.params == p.params
      && JoinFree(d.body) && Unhidden(Bound(d.body), p)
      && Lowers(d.body, true, p)
  }

  lemma TurnRuns(m: Machine, p: Plan, calls: nat, formals: seq<Value>)
    requires Planned(m, p) && |formals| == |p.params|
    ensures var d := m.defs[p.name];
      Run(m, calls, p.name, formals)
        == After(m, calls, p, Tail(m, calls, formals, d.body, Bind(d.params, formals, map[]), p))
  {
    var d := m.defs[p.name];
    var env := Bind(d.params, formals, map[]);
    forall i | 0 <= i < |p.params|
      ensures p.params[i] in env && env[p.params[i]] == formals[i]
    {
      BindValue(d.params, formals, map[], i);
    }
    TailEval(m, calls, formals, d.body, env, p);
  }

  /** The emitted loop: same outcome as the recursion, with the same bound on calls. */
  method RunLoop(m: Machine, p: Plan, calls: nat, actuals: seq<Value>) returns (o: Outcome)
    requires Planned(m, p) && |actuals| == |p.params|
    ensures o == Run(m, calls, p.name, actuals)
  {
    var d := m.defs[p.name];
    var formals := actuals;
    var left := calls;
    while true
      invariant |formals| == |p.params|
      invariant Run(m, left, p.name, formals) == Run(m, calls, p.name, actuals)
      decreases left
    {
      TurnRuns(m, p, left, formals);
      var turn := Tail(m, left, formals, d.body, Bind(d.params, formals, map[]), p);
      if turn.Leave? {
        return turn.outcome;
      }
      if left == 0 {
        return OutOfFuel;
      }
      formals, left := turn.formals, left - 1;
    }
  }

  // ---- normalisation is needed ----

  /** `f x = if x == 1 then 7 else let x = 1 in f x`: the let hides the formal. */
  const Hiding: Definition := Definition("f", ["x"], [Scalar], Scalar,
    If(Prim(Eq, Cons(Var("x"), Cons(Lit(NatLit(1)), Nil))),
       Lit(NatLit(7)),
       Let("x", Lit(NatLit(1)), Call("f", Cons(Var("x"), Nil)))))

  lemma HidingTest(m: Machine, calls: nat, n: nat)
    requires m.jumps == 0
    ensures Eval(m, calls, 0, [Nat(n)], Hiding.body.cond, map["x" := Nat(n)], NoJoin) == Ok(Bool(n == 1))
  {
    var env := map["x" := Nat(n)];
    var test := Hiding.body.cond;
    var ones := Cons(Lit(NatLit(1)), Nil);
    assert EvalAll(m, calls, 0, [Nat(n)], Nil, env, NoJoin) == Oks([]);
    assert EvalAll(m, calls, 0, [Nat(n)], ones, env, NoJoin) == Oks([Nat(1)] + []);
    assert EvalAll(m, calls, 0, [Nat(n)], test.args, env, NoJoin) == Oks([Nat(n)] + [Nat(1)]);
  }

  lemma HidingAtOne(m: Machine, calls: nat)
    requires m == Machine(map["f" := Hiding], 0, true)
    ensures Run(m, calls, "f", [Nat(1)]) == Ok(Nat(7))
  {
    HidingTest(m, calls, 1);
    assert Bind(["x"], [Nat(1)], map[]) == map["x" := Nat(1)];
    assert Eval(m, calls, 0, [Nat(1)], Hiding.body.yes, map["x" := Nat(1)], NoJoin) == Ok(Nat(7));
    assert Eval(m, calls, 0, [Nat(1)], Hiding.body, map["x" := Nat(1)], NoJoin) == Ok(Nat(7));
  }

  lemma HidingAtZero(m: Machine, calls: nat)
    requires m == Machine(map["f" := Hiding], 0, true) && calls > 0
    ensures Run(m, calls, "f", [Nat(0)]) == Ok(Nat(7))
  {
    HidingTest(m, calls, 0);
    HidingAtOne(m, calls - 1);
    var env := map["x" := Nat(0)];
    var again := Hiding.body.no;
    assert Bind(["x"], [Nat(0)], map[]) == env;
    assert EvalAll(m, calls, 0, [Nat(0)], Nil, env["x" := Nat(1)], NoJoin) == Oks([]);
    assert [Nat(1)] + [] == [Nat(1)];
    assert EvalAll(m, calls, 0, [Nat(0)], again.body.args, env["x" := Nat(1)], NoJoin) == Oks([Nat(1)]);
    assert Eval(m, calls, 0, [Nat(0)], again.body, env["x" := Nat(1)], NoJoin) == Ok(Nat(7));
    assert Eval(m, calls, 0, [Nat(0)], again, env, NoJoin) == Ok(Nat(7));
  }

  /** With a hidden formal the plan still succeeds, but the loop goes round for ever where
      the recursion returns. */
  lemma HiddenFormalLoops(calls: nat)
    ensures var m := Machine(map["f" := Hiding], 0, true);
      var p := Plan("f", ["x"], [true], [false]);
      && Lowers(Hiding.body, true, p)
      && Tail(m, calls, [Nat(0)], Hiding.body, map["x" := Nat(0)], p) == Again([Nat(0)])
      && (calls > 0 ==> Run(m, calls, "f", [Nat(0)]) == Ok(Nat(7)))
  {
    var m := Machine(map["f" := Hiding], 0, true);
    var p := Plan("f", ["x"], [true], [false]);
    var again := Hiding.body.no;
    var env1 := map["x" := Nat(0)]["x" := Nat(1)];
    HidingTest(m, calls, 0);
    assert LowersArgs(again.body.args, 0, p) && Lowers(again, true, p);
    assert Operands(m, calls, [Nat(0)], Nil, 1, env1, p) == Oks([]);
    assert Operands(m, calls, [Nat(0)], again.body.args, 0, env1, p) == Oks([Nat(0)] + []);
    if calls > 0 {
      HidingAtZero(m, calls);
    }
  }
}
