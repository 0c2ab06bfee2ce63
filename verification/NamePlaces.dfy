/** The names a definition keeps its binders away from, by places (`naming.rs`).

    `protected_names`, `temporary_names` and `original_names` collect names in one walk each.
    `ProtectedExactly` and `UnmentionedExactly` say which names those are: what some node of
    the body claims or mentions, and nothing else.
 */
module NamePlaces {
  import opened Ir
  import opened Naming
  import opened Paths
  import opened Wrappers

  // ---- something stands somewhere ----

  ghost predicate StandsAt(e: Expr, path: Path, p: Expr -> bool) {
    var s := At(e, path); s.Some? && p(s.value)
  }

  ghost predicate Somewhere(e: Expr, p: Expr -> bool) {
    exists path :: StandsAt(e, path, p)
  }

  ghost predicate SomewhereIn(cs: seq<Expr>, p: Expr -> bool) {
    exists i :: 0 <= i < |cs| && Somewhere(cs[i], p)
  }

  lemma SomewhereBelow(e: Expr, p: Expr -> bool)
    ensures Somewhere(e, p) <==> p(e) || SomewhereIn(Children(e), p)
  {
    if path :| StandsAt(e, path, p) {
      if path != [] {
        assert StandsAt(Children(e)[path[0]], path[1..], p);
      }
    }
    if p(e) {
      assert StandsAt(e, [], p);
    }
    if i :| 0 <= i < |Children(e)| && Somewhere(Children(e)[i], p) {
      var path :| StandsAt(Children(e)[i], path, p);
      AtStep(e, i, path);
      assert StandsAt(e, [i] + path, p);
    }
  }

  lemma SomewhereCons(c: Expr, cs: seq<Expr>, p: Expr -> bool)
    ensures SomewhereIn([c] + cs, p) <==> Somewhere(c, p) || SomewhereIn(cs, p)
  {
    var both := [c] + cs;
    assert both[0] == c;
    assert forall i :: 0 <= i < |cs| ==> cs[i] == both[i + 1];
    assert forall i :: 1 <= i < |both| ==> both[i] == cs[i - 1];
  }

  lemma SomewhereThree(a: Expr, b: Expr, c: Expr, p: Expr -> bool)
    ensures SomewhereIn([a, b, c], p) <==> Somewhere(a, p) || Somewhere(b, p) || Somewhere(c, p)
  {
    var cs := [a, b, c];
    assert cs[0] == a && cs[1] == b && cs[2] == c;
  }

  lemma SomewhereTwo(a: Expr, b: Expr, p: Expr -> bool)
    ensures SomewhereIn([a, b], p) <==> Somewhere(a, p) || Somewhere(b, p)
  {
    var cs := [a, b];
    assert cs[0] == a && cs[1] == b;
  }

  lemma SomewhereOne(a: Expr, p: Expr -> bool)
    ensures SomewhereIn([a], p) <==> Somewhere(a, p)
  {
    var cs := [a];
    assert cs[0] == a;
  }

  // ---- names the emitted code uses ----

  predicate Alternative(alts: Alts, c: string) {
    alts.Alt? && (alts.ctor == c || Alternative(alts.rest, c))
  }

  /** The code of this node uses the name: the temporary of an append or a cons, the helper
      behind a call, a constructor that no declaration qualifies. */
  predicate Claims(e: Expr, x: string, lx: Lexicon) {
    match e
    case Prim(Append, _) => x == "__value"
    case Prim(Ctor(c), _) => (c == "List.cons" && x == "__list") || (x == c && !lx.declared(c))
    case Call(f, _) => x == lx.emitted(f)
    case Match(_, alts) => Alternative(alts, x) && !lx.declared(x)
    case _ => false
  }

  ghost predicate Claimed(e: Expr, x: string, lx: Lexicon) {
    Somewhere(e, n => Claims(n, x, lx))
  }

  lemma {:induction false} OccupiedExactly(e: Expr, x: string, lx: Lexicon)
    ensures x in Occupied(e, lx) <==> Claimed(e, x, lx)
    decreases e, 1
  {
    var p := n => Claims(n, x, lx);
    SomewhereBelow(e, p);
    match e
    case Lit(_) =>
    case Var(_) =>
    case Param(_) =>
    case Unreachable =>
    case Prim(_, es) => OccupiedListed(es, x, lx, p);
    case Call(_, es) => OccupiedListed(es, x, lx, p);
    case Jmp(_, es) => OccupiedListed(es, x, lx, p);
    case Jp(_, _, c) =>
      OccupiedExactly(c, x, lx);
      SomewhereOne(c, p);
    case If(c, t, f) =>
      OccupiedExactly(c, x, lx);
      OccupiedExactly(t, x, lx);
      OccupiedExactly(f, x, lx);
      SomewhereThree(c, t, f, p);
    case Let(_, v, b) =>
      OccupiedExactly(v, x, lx);
      OccupiedExactly(b, x, lx);
      SomewhereTwo(v, b, p);
    case Match(s, alts) =>
      OccupiedExactly(s, x, lx);
      OccupiedBodies(alts, x, lx, p);
      SomewhereCons(s, Bodies(alts), p);
  }

  lemma {:induction false} OccupiedListed(es: Exprs, x: string, lx: Lexicon, p: Expr -> bool)
    requires p == (n => Claims(n, x, lx))
    ensures x in OccupiedAll(es, lx) <==> SomewhereIn(Listed(es), p)
    decreases es
  {
    if es.Cons? {
      OccupiedExactly(es.head, x, lx);
      OccupiedListed(es.tail, x, lx, p);
      SomewhereCons(es.head, Listed(es.tail), p);
    }
  }

  lemma {:induction false} OccupiedBodies(alts: Alts, x: string, lx: Lexicon, p: Expr -> bool)
    requires p == (n => Claims(n, x, lx))
    ensures x in OccupiedAlts(alts, lx) <==> (Alternative(alts, x) && !lx.declared(x)) || SomewhereIn(Bodies(alts), p)
    decreases alts
  {
    match alts
    case NoMore =>
    case Default(b) =>
      OccupiedExactly(b, x, lx);
      SomewhereOne(b, p);
    case Alt(_, _, b, rest) =>
      OccupiedExactly(b, x, lx);
      OccupiedBodies(rest, x, lx, p);
      SomewhereCons(b, Bodies(rest), p);
  }

  /** Names no binder may be spelled like: the prelude's, the ones the code of the body claims,
      the definition's own helper, and the temporaries of a function that fills a buffer. */
  ghost predicate Kept(d: Definition, x: string, lx: Lexicon) {
    || x in ["Some", "None", "Ok", "Err", "Self", "_"]
    || Claimed(d.body, x, lx)
    || (x == lx.emitted(d.name) && x != d.name)
    || (d.ret.List? && d.params != [] && x in ["output", "__source", "__len"])
  }

  /** A spelling is protected exactly when it is the key of such a name. */
  lemma ProtectedExactly(d: Definition, lx: Lexicon, key: string)
    ensures key in AlphabetOf(d, lx).protected <==> exists x :: Kept(d, x, lx) && lx.key(x) == key
  {
    forall x
      ensures x in Occupied(d.body, lx) <==> Claimed(d.body, x, lx)
    {
      OccupiedExactly(d.body, x, lx);
    }
    var buffer := d.ret.List? && d.params != [];
    var names := {"Some", "None", "Ok", "Err", "Self", "_"} + Occupied(d.body, lx)
      + (if lx.emitted(d.name) != d.name then {lx.emitted(d.name)} else {})
      + (if buffer then {"output", "__source", "__len"} else {});
    assert forall x :: x in names <==> Kept(d, x, lx);
  }

  // ---- names the source mentions ----

  predicate BoundBy(alts: Alts, x: string) {
    alts.Alt? && (x in alts.binders || BoundBy(alts.rest, x))
  }

  /** The node spells the name, as a variable, a binder or a label. */
  predicate Spelt(e: Expr, x: string) {
    match e
    case Var(y) => x == y
    case Let(y, _, _) => x == y
    case Match(_, alts) => BoundBy(alts, x)
    case Jp(l, ps, _) => x == l || x in ps
    case Jmp(l, _) => x == l
    case _ => false
  }

  ghost predicate SpeltKey(e: Expr, key: string, lx: Lexicon) {
    exists x :: Spelt(e, x) && lx.key(x) == key
  }

  ghost predicate Mentioned(e: Expr, key: string, lx: Lexicon) {
    Somewhere(e, n => SpeltKey(n, key, lx))
  }

  /** The keys a node itself contributes. */
  lemma SpeltHere(e: Expr, key: string, lx: Lexicon)
    ensures e.Var? || e.Let? ==> (SpeltKey(e, key, lx) <==> key == lx.key(e.name))
    ensures e.Jmp? ==> (SpeltKey(e, key, lx) <==> key == lx.key(e.target))
    ensures e.Jp? ==> (SpeltKey(e, key, lx) <==> key == lx.key(e.target) || key in KeysOf(e.params, lx))
    ensures e.Lit? || e.Param? || e.Prim? || e.If? || e.Call? || e.Unreachable? ==> !SpeltKey(e, key, lx)
  {
    if e.Var? || e.Let? {
      assert Spelt(e, e.name);
    }
    if e.Jmp? || e.Jp? {
      assert Spelt(e, e.target);
    }
    if e.Jp? && key in KeysOf(e.params, lx) {
      var x :| x in e.params && lx.key(x) == key;
      assert Spelt(e, x);
    }
  }

  ghost predicate BoundKey(alts: Alts, key: string, lx: Lexicon) {
    exists x :: BoundBy(alts, x) && lx.key(x) == key
  }

  lemma BoundKeyStep(alts: Alts, key: string, lx: Lexicon)
    requires alts.Alt?
    ensures BoundKey(alts, key, lx) <==> key in KeysOf(alts.binders, lx) || BoundKey(alts.rest, key, lx)
  {
    if key in KeysOf(alts.binders, lx) {
      var x :| x in alts.binders && lx.key(x) == key;
      assert BoundBy(alts, x);
    }
    if BoundKey(alts.rest, key, lx) {
      var x :| BoundBy(alts.rest, x) && lx.key(x) == key;
      assert BoundBy(alts, x);
    }
  }

  lemma MatchSpelt(e: Expr, key: string, lx: Lexicon)
    requires e.Match?
    ensures SpeltKey(e, key, lx) <==> BoundKey(e.alts, key, lx)
  {
    if SpeltKey(e, key, lx) {
      var x :| Spelt(e, x) && lx.key(x) == key;
      assert BoundBy(e.alts, x);
    }
    if BoundKey(e.alts, key, lx) {
      var x :| BoundBy(e.alts, x) && lx.key(x) == key;
      assert Spelt(e, x);
    }
  }

  lemma {:induction false} MentionedExactly(e: Expr, key: string, lx: Lexicon)
    ensures key in MentionKeys(e, lx) <==> Mentioned(e, key, lx)
    decreases e, 1
  {
    var p := n => SpeltKey(n, key, lx);
    SomewhereBelow(e, p);
    SpeltHere(e, key, lx);
    match e
    case Lit(_) =>
    case Var(_) =>
    case Param(_) =>
    case Unreachable =>
    case Prim(_, es) => MentionedListed(es, key, lx, p);
    case Call(_, es) => MentionedListed(es, key, lx, p);
    case Jmp(_, es) => MentionedListed(es, key, lx, p);
    case Jp(_, _, c) =>
      MentionedExactly(c, key, lx);
      SomewhereOne(c, p);
    case If(c, t, f) =>
      MentionedExactly(c, key, lx);
      MentionedExactly(t, key, lx);
      MentionedExactly(f, key, lx);
      SomewhereThree(c, t, f, p);
    case Let(_, v, b) =>
      MentionedExactly(v, key, lx);
      MentionedExactly(b, key, lx);
      SomewhereTwo(v, b, p);
    case Match(s, alts) =>
      MentionedExactly(s, key, lx);
      MentionedBodies(alts, key, lx, p);
      MatchSpelt(e, key, lx);
      SomewhereCons(s, Bodies(alts), p);
  }

  lemma {:induction false} MentionedListed(es: Exprs, key: string, lx: Lexicon, p: Expr -> bool)
    requires p == (n => SpeltKey(n, key, lx))
    ensures key in MentionKeysAll(es, lx) <==> SomewhereIn(Listed(es), p)
    decreases es
  {
    if es.Cons? {
      MentionedExactly(es.head, key, lx);
      MentionedListed(es.tail, key, lx, p);
      SomewhereCons(es.head, Listed(es.tail), p);
    }
  }

  lemma {:induction false} MentionedBodies(alts: Alts, key: string, lx: Lexicon, p: Expr -> bool)
    requires p == (n => SpeltKey(n, key, lx))
    ensures key in MentionKeysAlts(alts, lx) <==> BoundKey(alts, key, lx) || SomewhereIn(Bodies(alts), p)
    decreases alts
  {
    match alts
    case NoMore =>
    case Default(b) =>
      MentionedExactly(b, key, lx);
      SomewhereOne(b, p);
    case Alt(_, _, b, rest) =>
      MentionedExactly(b, key, lx);
      MentionedBodies(rest, key, lx, p);
      BoundKeyStep(alts, key, lx);
      SomewhereCons(b, Bodies(rest), p);
  }

  /** A generated name is one whose key no formal and no node of the body spells. */
  lemma UnmentionedExactly(d: Definition, lx: Lexicon, x: string)
    ensures Unmentioned(x, RulesOf(d, lx))
       <==> (forall y :: y in d.params ==> lx.key(y) != lx.key(x)) && !Mentioned(d.body, lx.key(x), lx)
  {
    MentionedExactly(d.body, lx.key(x), lx);
  }
}
