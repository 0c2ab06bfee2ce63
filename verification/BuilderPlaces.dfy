/** Which bodies builder mode accepts, by places.

    Code that fills a buffer is generated for the places a list result comes from: branches,
    let bodies and the tails of conses.  `AcceptedExactly` says that generation succeeds
    exactly when each of these places is one the generator has code for, given the list
    bindings recorded on the way there.
 */
module BuilderPlaces {
  import opened Builder
  import opened Ir
  import opened Paths
  import opened Wrappers
  import TailCalls

  /** Child `i` builds the list, or the rest of it. */
  predicate BuilderStep(e: Expr, i: nat) {
    Yields(e, i) || (IsCons(e) && i == 1)
  }

  predicate BuilderAt(e: Expr, path: Path)
    decreases |path|
  {
    path != [] ==>
      var s := Above(e, path); s.Some? && BuilderStep(s.value, Last(path)) && BuilderAt(e, Front(path))
  }

  /** The let records its value instead of computing it. */
  predicate Records(cx: Context, e: Expr, lists: seq<Entry>, params: set<string>)
    requires e.Let?
  {
    Inlined(e.value) || (ListValued(cx, e.value, lists, params) && !Dropped(e))
  }

  /** The let drops its value. */
  predicate Dropped(e: Expr)
    requires e.Let?
  {
    TailCalls.Discardable(e.value) && V(e.name) !in Free(e.body)
  }

  function Entered(cx: Context, e: Expr, i: nat, lists: seq<Entry>, params: set<string>): seq<Entry> {
    if e.Let? && i == 1 && Records(cx, e, lists, params) then lists + [Entry(e.name, e.value)] else lists
  }

  /** The bindings recorded on the way to a place. */
  function ListsAt(cx: Context, e: Expr, path: Path, lists: seq<Entry>, params: set<string>): seq<Entry>
    decreases |path|
  {
    if path == [] then lists
    else
      var s := Above(e, path);
      var outer := ListsAt(cx, e, Front(path), lists, params);
      if s.Some? then Entered(cx, s.value, Last(path), outer, params) else outer
  }

  // ---- what the generator has code for ----

  /** What is computed here, and not built, is an ordinary value. */
  ghost predicate Computes(cx: Context, e: Expr, lists: seq<Entry>, params: set<string>) {
    && (e.If? ==> ValuePosition(cx, e.cond, lists))
    && (e.Match? ==> ValuePosition(cx, e.scrut, lists))
    && (e.Let? ==> Records(cx, e, lists, params) || Dropped(e) || ValuePosition(cx, e.value, lists))
    && (IsCons(e) ==> ValuePosition(cx, e.args.head, lists))
  }

  /** A list that is there already: empty, recorded, a list parameter, a list field of a value,
      or delivered by a callee that fills buffers. */
  ghost predicate Delivers(cx: Context, e: Expr, lists: seq<Entry>, params: set<string>) {
    || IsNil(e)
    || (e.Var? && Lookup(lists, e.name) >= 0 && Resolved(cx, lists, Lookup(lists, e.name), params))
    || (e.Var? && Lookup(lists, e.name) < 0 && e.name in params)
    || (ListField(cx, e) && ValuePosition(cx, e, lists))
    || (e.Call? && e.callee in cx.buffers && ValuePositions(cx, e.args, lists))
  }

  /** The recorded value is accepted where it was recorded. */
  ghost predicate Resolved(cx: Context, lists: seq<Entry>, k: nat, params: set<string>)
    requires k < |lists|
  {
    Accepted(cx, lists[k].value, lists[..k], params)
  }

  ghost predicate Fine(cx: Context, e: Expr, lists: seq<Entry>, params: set<string>) {
    Computes(cx, e, lists, params) && (e.If? || e.Match? || e.Let? || IsCons(e) || Delivers(cx, e, lists, params))
  }

  ghost predicate FineAt(cx: Context, e: Expr, path: Path, lists: seq<Entry>, params: set<string>) {
    var s := At(e, path);
    s.Some? && BuilderAt(e, path) ==> Fine(cx, s.value, ListsAt(cx, e, path, lists, params), params)
  }

  ghost predicate AllFine(cx: Context, e: Expr, lists: seq<Entry>, params: set<string>) {
    forall path :: FineAt(cx, e, path, lists, params)
  }

  // ---- child by child ----

  lemma {:induction false} StepBelow(cx: Context, e: Expr, i: nat, path: Path, lists: seq<Entry>, params: set<string>)
    requires i < |Children(e)|
    ensures BuilderAt(e, [i] + path) <==> BuilderStep(e, i) && BuilderAt(Children(e)[i], path)
    ensures ListsAt(cx, e, [i] + path, lists, params)
         == ListsAt(cx, Children(e)[i], path, Entered(cx, e, i, lists, params), params)
    decreases |path|
  {
    if path == [] {
      assert Front([i] + path) == [] && Last([i] + path) == i;
    } else {
      FrontStep(i, path);
      AtStep(e, i, Front(path));
      StepBelow(cx, e, i, Front(path), lists, params);
    }
  }

  ghost predicate FineBelow(cx: Context, e: Expr, lists: seq<Entry>, params: set<string>) {
    forall i :: 0 <= i < |Children(e)| && BuilderStep(e, i) ==>
      AllFine(cx, Children(e)[i], Entered(cx, e, i, lists, params), params)
  }

  lemma AllBelow(cx: Context, e: Expr, lists: seq<Entry>, params: set<string>)
    ensures AllFine(cx, e, lists, params) <==> Fine(cx, e, lists, params) && FineBelow(cx, e, lists, params)
  {
    if AllFine(cx, e, lists, params) {
      assert FineAt(cx, e, [], lists, params);
      forall i | 0 <= i < |Children(e)| && BuilderStep(e, i)
        ensures AllFine(cx, Children(e)[i], Entered(cx, e, i, lists, params), params)
      {
        FineChild(cx, e, i, lists, params);
      }
    }
    if Fine(cx, e, lists, params) && FineBelow(cx, e, lists, params) {
      forall path ensures FineAt(cx, e, path, lists, params) {
        if path != [] && path[0] < |Children(e)| {
          SplitStep(path);
          StepBelow(cx, e, path[0], path[1..], lists, params);
          if BuilderStep(e, path[0]) {
            assert FineAt(cx, Children(e)[path[0]], path[1..], Entered(cx, e, path[0], lists, params), params);
          }
        }
      }
    }
  }

  lemma FineChild(cx: Context, e: Expr, i: nat, lists: seq<Entry>, params: set<string>)
    requires i < |Children(e)| && BuilderStep(e, i) && AllFine(cx, e, lists, params)
    ensures AllFine(cx, Children(e)[i], Entered(cx, e, i, lists, params), params)
  {
    forall path ensures FineAt(cx, Children(e)[i], path, Entered(cx, e, i, lists, params), params) {
      AtStep(e, i, path);
      StepBelow(cx, e, i, path, lists, params);
      assert FineAt(cx, e, [i] + path, lists, params);
    }
  }

  ghost predicate EachFine(cx: Context, cs: seq<Expr>, lists: seq<Entry>, params: set<string>) {
    forall i :: 0 <= i < |cs| ==> AllFine(cx, cs[i], lists, params)
  }

  lemma IfBelow(cx: Context, e: Expr, lists: seq<Entry>, params: set<string>)
    requires e.If?
    ensures FineBelow(cx, e, lists, params) <==> AllFine(cx, e.yes, lists, params) && AllFine(cx, e.no, lists, params)
  {
    assert Children(e)[1] == e.yes && Children(e)[2] == e.no;
  }

  lemma LetBelow(cx: Context, e: Expr, lists: seq<Entry>, params: set<string>)
    requires e.Let?
    ensures FineBelow(cx, e, lists, params) <==> AllFine(cx, e.body, Entered(cx, e, 1, lists, params), params)
  {
    assert Children(e)[1] == e.body;
  }

  lemma ConsBelow(cx: Context, e: Expr, lists: seq<Entry>, params: set<string>)
    requires IsCons(e)
    ensures FineBelow(cx, e, lists, params) <==> AllFine(cx, e.args.tail.head, lists, params)
  {
    assert Listed(e.args.tail) == [e.args.tail.head] + Listed(e.args.tail.tail);
    assert Children(e)[1] == e.args.tail.head;
  }

  lemma MatchBelow(cx: Context, e: Expr, lists: seq<Entry>, params: set<string>)
    requires e.Match?
    ensures FineBelow(cx, e, lists, params) <==> EachFine(cx, Bodies(e.alts), lists, params)
  {
    var cs, bodies := Children(e), Bodies(e.alts);
    assert forall i :: 0 <= i < |bodies| ==> bodies[i] == cs[i + 1];
    assert forall i :: 1 <= i < |cs| ==> cs[i] == bodies[i - 1];
    if FineBelow(cx, e, lists, params) {
      forall i | 0 <= i < |bodies| ensures AllFine(cx, bodies[i], lists, params) {
        assert AllFine(cx, cs[i + 1], Entered(cx, e, i + 1, lists, params), params);
      }
    }
  }

  /** Generation succeeds exactly when there is code for every place a list comes from. */
  lemma {:induction false} AcceptedExactly(cx: Context, e: Expr, lists: seq<Entry>, params: set<string>)
    ensures Accepted(cx, e, lists, params) <==> AllFine(cx, e, lists, params)
    decreases e, 1
  {
    AllBelow(cx, e, lists, params);
    match e
    case If(c, t, f) =>
      AcceptedExactly(cx, t, lists, params);
      AcceptedExactly(cx, f, lists, params);
      IfBelow(cx, e, lists, params);
    case Let(_, _, b) =>
      AcceptedExactly(cx, b, Entered(cx, e, 1, lists, params), params);
      LetBelow(cx, e, lists, params);
    case Match(_, alts) =>
      AcceptedExactlyAlts(cx, alts, lists, params);
      MatchBelow(cx, e, lists, params);
    case Prim(_, es) =>
      if IsCons(e) {
        AcceptedExactly(cx, es.tail.head, lists, params);
        ConsBelow(cx, e, lists, params);
      }
    case _ =>
  }

  lemma {:induction false} AcceptedExactlyAlts(cx: Context, alts: Alts, lists: seq<Entry>, params: set<string>)
    ensures AcceptedAlts(cx, alts, lists, params) <==> EachFine(cx, Bodies(alts), lists, params)
    decreases alts
  {
    match alts
    case NoMore =>
    case Default(b) =>
      AcceptedExactly(cx, b, lists, params);
      assert [b][0] == b;
    case Alt(_, _, b, rest) =>
      AcceptedExactly(cx, b, lists, params);
      AcceptedExactlyAlts(cx, rest, lists, params);
      var cs, others := Bodies(alts), Bodies(rest);
      assert cs[0] == b;
      assert forall i :: 0 <= i < |others| ==> others[i] == cs[i + 1];
      assert forall i :: 1 <= i < |cs| ==> cs[i] == others[i - 1];
  }
}
