/** What a failing run means when list bindings are deferred.

    A deferred list is computed where it is used, so its error is lost if it is not used.
    `Resolves` asks every path to use every list it defers.  `ResolvedExact` is then the
    two-sided claim: the builder succeeds exactly when the list exists and fits.
 */
module DeferredLists {
  import opened Ir
  import opened Semantics
  import opened Builder
  import opened LazyLists
  import TailCalls

  /** Building `e` always resolves entry `k`. */
  predicate Demands(cx: Context, e: Expr, lists: seq<Entry>, params: set<string>, k: nat)
    decreases Weight(lists) + Size(e), e
  {
    match e
    case If(_, t, f) => Demands(cx, t, lists, params, k) && Demands(cx, f, lists, params, k)
    case Let(x, v, b) =>
      WeightPush(lists, Entry(x, v));
      if Inlined(v) then Demands(cx, b, lists + [Entry(x, v)], params, k)
      else if TailCalls.Discardable(v) && V(x) !in Free(b) then Demands(cx, b, lists, params, k)
      else if ListValued(cx, v, lists, params) then Demands(cx, b, lists + [Entry(x, v)], params, k)
      else Demands(cx, b, lists, params, k)
    case Match(_, alts) => DemandsAlts(cx, alts, lists, params, k)
    case Var(x) =>
      var j := Lookup(lists, x);
      if j > k then
        WeightResolve(lists, j);
        Demands(cx, lists[j].value, lists[..j], params, k)
      else j == k
    case Prim(_, es) => IsCons(e) && (ConsSize(e); Demands(cx, es.tail.head, lists, params, k))
    case _ => false
  }

  predicate DemandsAlts(cx: Context, alts: Alts, lists: seq<Entry>, params: set<string>, k: nat)
    decreases Weight(lists) + SizeAlts(alts), alts
  {
    match alts
    case NoMore => true
    case Default(b) => Demands(cx, b, lists, params, k)
    case Alt(_, _, b, rest) => Demands(cx, b, lists, params, k) && DemandsAlts(cx, rest, lists, params, k)
  }

  /** Every list that is deferred is resolved on every path from there. */
  predicate Resolves(cx: Context, e: Expr, lists: seq<Entry>, params: set<string>)
    decreases Weight(lists) + Size(e), e
  {
    match e
    case If(_, t, f) => Resolves(cx, t, lists, params) && Resolves(cx, f, lists, params)
    case Let(x, v, b) =>
      WeightPush(lists, Entry(x, v));
      if Inlined(v) then Resolves(cx, b, lists + [Entry(x, v)], params)
      else if TailCalls.Discardable(v) && V(x) !in Free(b) then Resolves(cx, b, lists, params)
      else if ListValued(cx, v, lists, params) then
        && Resolves(cx, v, lists, params) && Demands(cx, b, lists + [Entry(x, v)], params, |lists|)
        && Resolves(cx, b, lists + [Entry(x, v)], params)
      else Resolves(cx, b, lists, params)
    case Match(_, alts) => ResolvesAlts(cx, alts, lists, params)
    case Var(x) =>
      var j := Lookup(lists, x);
      j >= 0 ==> (WeightResolve(lists, j); Resolves(cx, lists[j].value, lists[..j], params))
    case Prim(_, es) => IsCons(e) ==> (ConsSize(e); Resolves(cx, es.tail.head, lists, params))
    case _ => true
  }

  predicate ResolvesAlts(cx: Context, alts: Alts, lists: seq<Entry>, params: set<string>)
    decreases Weight(lists) + SizeAlts(alts), alts
  {
    match alts
    case NoMore => true
    case Default(b) => Resolves(cx, b, lists, params)
    case Alt(_, _, b, rest) => Resolves(cx, b, lists, params) && ResolvesAlts(cx, rest, lists, params)
  }

  ghost predicate Resolving(cx: Context) {
    && BuilderModule(cx, false)
    && (forall f :: f in cx.buffers && f in cx.m.defs ==> Resolves(cx, cx.m.defs[f].body, [], ListParams(cx.m.defs[f])))
  }

  // ---- a list that cannot be built spoils whatever demands it ----

  /** However many variables come into scope, building `v` never succeeds. */
  ghost predicate Spoilt(cx: Context, calls: nat, actuals: seq<Value>, v: Expr, env: Env, lists: seq<Entry>,
                         params: set<string>, added: set<Name>)
  {
    Accepted(cx, v, lists, params) ==>
      forall env', buf :: Extends(env, env', added) ==> !Build(cx, calls, actuals, v, env', lists, params, buf).Wrote?
  }

  /** Entry `k` is spoilt, and later entries and `bound` only bring in new variables. */
  ghost predicate Spoiling(cx: Context, calls: nat, actuals: seq<Value>, bound: set<Name>, base: Env, env: Env,
                           lists: seq<Entry>, params: set<string>, k: nat, added: set<Name>)
  {
    && k < |lists| && Spoilt(cx, calls, actuals, lists[k].value, base, lists[..k], params, added)
    && Extends(base, env, added) && bound <= added && (forall x :: x in base ==> V(x) !in added)
    && (forall j :: k < j < |lists| ==> Bound(lists[j].value) <= added)
  }

  lemma {:induction false} SpoilsBuild(
    cx: Context, calls: nat, actuals: seq<Value>, e: Expr, base: Env, env: Env, lists: seq<Entry>,
    params: set<string>, buf: seq<Value>, k: nat, added: set<Name>)
    requires Spoiling(cx, calls, actuals, Bound(e), base, env, lists, params, k, added)
    requires Accepted(cx, e, lists, params) && Demands(cx, e, lists, params, k)
    ensures !Build(cx, calls, actuals, e, env, lists, params, buf).Wrote?
    decreases Weight(lists) + Size(e), e, 1
  {
    match e
    case If(c, t, f) =>
      SpoilsBuild(cx, calls, actuals, t, base, env, lists, params, buf, k, added);
      SpoilsBuild(cx, calls, actuals, f, base, env, lists, params, buf, k, added);
    case Let(_, _, _) => SpoilsLet(cx, calls, actuals, e, base, env, lists, params, buf, k, added);
    case Match(s, alts) =>
      var o := Eval(cx.m, calls, cx.m.jumps, actuals, s, env, NoJoin);
      if o.Ok? {
        SpoilsAlts(cx, calls, actuals, alts, o.value, base, env, lists, params, buf, k, added);
      }
    case Var(x) => SpoilsVar(cx, calls, actuals, e, base, env, lists, params, buf, k, added);
    case Prim(_, es) =>
      ConsSize(e);
      ConsParts(e);
      if buf != [] {
        SpoilsBuild(cx, calls, actuals, es.tail.head, base, env, lists, params, buf[1..], k, added);
      }
  }

  lemma {:induction false} SpoilsVar(
    cx: Context, calls: nat, actuals: seq<Value>, e: Expr, base: Env, env: Env, lists: seq<Entry>,
    params: set<string>, buf: seq<Value>, k: nat, added: set<Name>)
    requires e.Var? && Spoiling(cx, calls, actuals, Bound(e), base, env, lists, params, k, added)
    requires Accepted(cx, e, lists, params) && Demands(cx, e, lists, params, k)
    ensures !Build(cx, calls, actuals, e, env, lists, params, buf).Wrote?
    decreases Weight(lists) + Size(e), e, 0
  {
    var j := Lookup(lists, e.name);
    WeightResolve(lists, j);
    if j > k {
      assert lists[..j][..k] == lists[..k] && lists[..j][k] == lists[k];
      SpoilsBuild(cx, calls, actuals, lists[j].value, base, env, lists[..j], params, buf, k, added);
    }
  }

  lemma {:induction false} SpoilsLet(
    cx: Context, calls: nat, actuals: seq<Value>, e: Expr, base: Env, env: Env, lists: seq<Entry>,
    params: set<string>, buf: seq<Value>, k: nat, added: set<Name>)
    requires e.Let? && Spoiling(cx, calls, actuals, Bound(e), base, env, lists, params, k, added)
    requires Accepted(cx, e, lists, params) && Demands(cx, e, lists, params, k)
    ensures !Build(cx, calls, actuals, e, env, lists, params, buf).Wrote?
    decreases Weight(lists) + Size(e), e, 0
  {
    var Let(x, v, b) := e;
    var longer := lists + [Entry(x, v)];
    WeightPush(lists, Entry(x, v));
    assert longer[..k] == lists[..k] && longer[k] == lists[k];
    if Inlined(v) {
      SpoilsBuild(cx, calls, actuals, b, base, env[x := InlineValue(v)], longer, params, buf, k, added);
    } else if TailCalls.Discardable(v) && V(x) !in Free(b) {
      SpoilsBuild(cx, calls, actuals, b, base, env, lists, params, buf, k, added);
    } else if ListValued(cx, v, lists, params) {
      SpoilsBuild(cx, calls, actuals, b, base, env, longer, params, buf, k, added);
    } else {
      var o := Eval(cx.m, calls, cx.m.jumps, actuals, v, env, NoJoin);
      if o.Ok? {
        SpoilsBuild(cx, calls, actuals, b, base, env[x := o.value], lists, params, buf, k, added);
      }
    }
  }

  lemma {:induction false} SpoilsAlts(
    cx: Context, calls: nat, actuals: seq<Value>, alts: Alts, v: Value, base: Env, env: Env, lists: seq<Entry>,
    params: set<string>, buf: seq<Value>, k: nat, added: set<Name>)
    requires Spoiling(cx, calls, actuals, BoundAlts(alts), base, env, lists, params, k, added)
    requires AcceptedAlts(cx, alts, lists, params) && DemandsAlts(cx, alts, lists, params, k)
    ensures !BuildAlts(cx, calls, actuals, alts, v, env, lists, params, buf).Wrote?
    decreases Weight(lists) + SizeAlts(alts), alts
  {
    match alts
    case NoMore =>
    case Default(b) => SpoilsBuild(cx, calls, actuals, b, base, env, lists, params, buf, k, added);
    case Alt(c, bs, b, rest) =>
      var fs := Fields(c, |bs|, v);
      if fs != [] {
        BindKeys(bs, fs[0], env);
        assert forall x :: x in bs ==> V(x) in BoundAlts(alts);
        SpoilsBuild(cx, calls, actuals, b, base, Bind(bs, fs[0], env), lists, params, buf, k, added);
      } else {
        SpoilsAlts(cx, calls, actuals, rest, v, base, env, lists, params, buf, k, added);
      }
  }

  // ---- where every list is resolved, no failure is lost ----

  ghost predicate Prepared(cx: Context, calls: nat, actuals: seq<Value>, e: Expr, all: Env, env: Env,
                           lists: seq<Entry>, params: set<string>)
  {
    Resolving(cx) && Ready(cx, calls, actuals, e, all, env, lists, params, false) && Resolves(cx, e, lists, params)
  }

  ghost predicate PreparedAlts(cx: Context, calls: nat, actuals: seq<Value>, alts: Alts, all: Env, env: Env,
                               lists: seq<Entry>, params: set<string>)
  {
    && Resolving(cx) && ReadyAlts(cx, calls, actuals, alts, all, env, lists, params, false)
    && ResolvesAlts(cx, alts, lists, params)
  }

  /** A run that stops in a recorded list does not succeed in builder code either. */
  lemma {:induction false} SpillUnbuilt(cx: Context, calls: nat, actuals: seq<Value>, e: Expr, all: Env, env: Env,
                                        lists: seq<Entry>, params: set<string>, buf: seq<Value>)
    requires Prepared(cx, calls, actuals, e, all, env, lists, params)
    requires Spill(cx, calls, actuals, e, all, lists, params).Some?
    ensures !Build(cx, calls, actuals, e, env, lists, params, buf).Wrote?
    decreases calls, 0, Weight(lists) + Size(e), e, 1
  {
    match e
    case If(_, _, _) => SpillUnbuiltIf(cx, calls, actuals, e, all, env, lists, params, buf);
    case Let(_, _, _) => SpillUnbuiltLet(cx, calls, actuals, e, all, env, lists, params, buf);
    case Match(_, _) => SpillUnbuiltMatch(cx, calls, actuals, e, all, env, lists, params, buf);
    case Prim(_, _) => SpillUnbuiltCons(cx, calls, actuals, e, all, env, lists, params, buf);
    case Call(_, _) => SpillUnbuiltCall(cx, calls, actuals, e, all, env, lists, params, buf);
  }

  lemma {:induction false} SpillUnbuiltIf(cx: Context, calls: nat, actuals: seq<Value>, e: Expr, all: Env, env: Env,
                                           lists: seq<Entry>, params: set<string>, buf: seq<Value>)
    requires e.If? && Prepared(cx, calls, actuals, e, all, env, lists, params)
    requires Spill(cx, calls, actuals, e, all, lists, params).Some?
    ensures !Build(cx, calls, actuals, e, env, lists, params, buf).Wrote?
    decreases calls, 0, Weight(lists) + Size(e), e, 0
  {
    ValueEval(cx, calls, actuals, e.cond, all, env, lists, false);
    var o := Reference(cx, calls, actuals, e.cond, all);
    SpillUnbuilt(cx, calls, actuals, if o.value.b then e.yes else e.no, all, env, lists, params, buf);
  }

  lemma {:induction false} SpillUnbuiltMatch(cx: Context, calls: nat, actuals: seq<Value>, e: Expr, all: Env, env: Env,
                                           lists: seq<Entry>, params: set<string>, buf: seq<Value>)
    requires e.Match? && Prepared(cx, calls, actuals, e, all, env, lists, params)
    requires Spill(cx, calls, actuals, e, all, lists, params).Some?
    ensures !Build(cx, calls, actuals, e, env, lists, params, buf).Wrote?
    decreases calls, 0, Weight(lists) + Size(e), e, 0
  {
    ValueEval(cx, calls, actuals, e.scrut, all, env, lists, false);
    var o := Reference(cx, calls, actuals, e.scrut, all);
    SpillUnbuiltAlts(cx, calls, actuals, e.alts, o.value, all, env, lists, params, buf);
  }

  lemma {:induction false} SpillUnbuiltCons(cx: Context, calls: nat, actuals: seq<Value>, e: Expr, all: Env, env: Env,
                                           lists: seq<Entry>, params: set<string>, buf: seq<Value>)
    requires e.Prim? && Prepared(cx, calls, actuals, e, all, env, lists, params)
    requires Spill(cx, calls, actuals, e, all, lists, params).Some?
    ensures !Build(cx, calls, actuals, e, env, lists, params, buf).Wrote?
    decreases calls, 0, Weight(lists) + Size(e), e, 0
  {
    var h, t := e.args.head, e.args.tail.head;
    ConsSize(e);
    ConsParts(e);
    ValueEval(cx, calls, actuals, h, all, env, lists, false);
    if buf != [] {
      SpillUnbuilt(cx, calls, actuals, t, all, env, lists, params, buf[1..]);
    }
  }

  lemma {:induction false} SpillUnbuiltCall(cx: Context, calls: nat, actuals: seq<Value>, e: Expr, all: Env, env: Env,
                                           lists: seq<Entry>, params: set<string>, buf: seq<Value>)
    requires e.Call? && Prepared(cx, calls, actuals, e, all, env, lists, params)
    requires Spill(cx, calls, actuals, e, all, lists, params).Some?
    ensures !Build(cx, calls, actuals, e, env, lists, params, buf).Wrote?
    decreases calls, 0, Weight(lists) + Size(e), e, 0
  {
    var es := e.args;
    ValueAgrees(cx, calls, actuals, FreeAll(es), all, env, lists, false);
    CoincidenceAll(cx.m, calls, cx.m.jumps, actuals, es, env, all);
    RunUnbuilt(cx, calls - 1, e.callee, EvalAll(cx.m, calls, cx.m.jumps, actuals, es, all, NoJoin).values, buf);
  }

  lemma {:induction false} SpillUnbuiltAlts(cx: Context, calls: nat, actuals: seq<Value>, alts: Alts, v: Value,
                                            all: Env, env: Env, lists: seq<Entry>, params: set<string>, buf: seq<Value>)
    requires PreparedAlts(cx, calls, actuals, alts, all, env, lists, params)
    requires SpillAlts(cx, calls, actuals, alts, v, all, lists, params).Some?
    ensures !BuildAlts(cx, calls, actuals, alts, v, env, lists, params, buf).Wrote?
    decreases calls, 0, Weight(lists) + SizeAlts(alts), alts
  {
    match alts
    case Default(b) => SpillUnbuilt(cx, calls, actuals, b, all, env, lists, params, buf);
    case Alt(c, bs, b, rest) =>
      var fs := Fields(c, |bs|, v);
      if fs != [] {
        AltReady(cx, calls, actuals, alts, fs[0], all, env, lists, params);
        SpillUnbuilt(cx, calls, actuals, b, Bind(bs, fs[0], all), Bind(bs, fs[0], env), lists, params, buf);
      } else {
        SpillUnbuiltAlts(cx, calls, actuals, rest, v, all, env, lists, params, buf);
      }
  }

  lemma {:induction false} SpillUnbuiltLet(cx: Context, calls: nat, actuals: seq<Value>, e: Expr, all: Env, env: Env,
                                           lists: seq<Entry>, params: set<string>, buf: seq<Value>)
    requires e.Let? && Prepared(cx, calls, actuals, e, all, env, lists, params)
    requires Spill(cx, calls, actuals, e, all, lists, params).Some?
    ensures !Build(cx, calls, actuals, e, env, lists, params, buf).Wrote?
    decreases calls, 0, Weight(lists) + Size(e), e, 0
  {
    if Inlined(e.value) {
      SpillUnbuiltInlined(cx, calls, actuals, e, all, env, lists, params, buf);
    } else if TailCalls.Discardable(e.value) && V(e.name) !in Free(e.body) {
      SpillUnbuiltDiscarded(cx, calls, actuals, e, all, env, lists, params, buf);
    } else if ListValued(cx, e.value, lists, params) {
      SpillUnbuiltDeferred(cx, calls, actuals, e, all, env, lists, params, buf);
    } else {
      SpillUnbuiltBound(cx, calls, actuals, e, all, env, lists, params, buf);
    }
  }

  lemma {:induction false} SpillUnbuiltDiscarded(cx: Context, calls: nat, actuals: seq<Value>, e: Expr, all: Env,
                                                 env: Env, lists: seq<Entry>, params: set<string>, buf: seq<Value>)
    requires e.Let? && Prepared(cx, calls, actuals, e, all, env, lists, params)
    requires !Inlined(e.value) && TailCalls.Discardable(e.value) && V(e.name) !in Free(e.body)
    requires Spill(cx, calls, actuals, e, all, lists, params).Some?
    ensures !Build(cx, calls, actuals, e, env, lists, params, buf).Wrote?
    decreases calls, 0, Weight(lists) + Size(e), e, 0, 0
  {
    WeightPush(lists, Entry(e.name, e.value));
    SpillUnbuilt(cx, calls, actuals, e.body, all, env, lists, params, buf);
  }

  lemma {:induction false} SpillUnbuiltInlined(cx: Context, calls: nat, actuals: seq<Value>, e: Expr, all: Env,
                                               env: Env, lists: seq<Entry>, params: set<string>, buf: seq<Value>)
    requires e.Let? && Inlined(e.value) && Prepared(cx, calls, actuals, e, all, env, lists, params)
    requires Spill(cx, calls, actuals, e, all, lists, params).Some?
    ensures !Build(cx, calls, actuals, e, env, lists, params, buf).Wrote?
    decreases calls, 0, Weight(lists) + Size(e), e, 0, 0
  {
    var Let(x, v, b) := e;
    var u := InlineValue(v);
    WeightPush(lists, Entry(x, v));
    InlinedValue(cx, calls, actuals, v, all);
    InlinedEntries(cx, calls, actuals, x, v, all, env, lists, false);
    SpillUnbuilt(cx, calls, actuals, b, all[x := u], env[x := u], lists + [Entry(x, v)], params, buf);
  }

  lemma {:induction false} SpillUnbuiltBound(cx: Context, calls: nat, actuals: seq<Value>, e: Expr, all: Env, env: Env,
                                             lists: seq<Entry>, params: set<string>, buf: seq<Value>)
    requires e.Let? && Prepared(cx, calls, actuals, e, all, env, lists, params)
    requires !Inlined(e.value) && !ListValued(cx, e.value, lists, params)
    requires !(TailCalls.Discardable(e.value) && V(e.name) !in Free(e.body))
    requires Spill(cx, calls, actuals, e, all, lists, params).Some?
    ensures !Build(cx, calls, actuals, e, env, lists, params, buf).Wrote?
    decreases calls, 0, Weight(lists) + Size(e), e, 0, 0
  {
    BoundReady(cx, calls, actuals, e, all, env, lists, params, buf);
    var u := Reference(cx, calls, actuals, e.value, all).value;
    SpillUnbuilt(cx, calls, actuals, e.body, all[e.name := u], env[e.name := u], lists, params, buf);
  }

  /** A deferred list either has a value, or spoils the body that demands it. */
  lemma {:induction false} SpillUnbuiltDeferred(cx: Context, calls: nat, actuals: seq<Value>, e: Expr, all: Env,
                                                env: Env, lists: seq<Entry>, params: set<string>, buf: seq<Value>)
    requires e.Let? && Prepared(cx, calls, actuals, e, all, env, lists, params)
    requires !Inlined(e.value) && ListValued(cx, e.value, lists, params)
    requires !(TailCalls.Discardable(e.value) && V(e.name) !in Free(e.body))
    requires Spill(cx, calls, actuals, e, all, lists, params).Some?
    ensures !Build(cx, calls, actuals, e, env, lists, params, buf).Wrote?
    decreases calls, 0, Weight(lists) + Size(e), e, 0, 0
  {
    var o := Reference(cx, calls, actuals, e.value, all);
    DeferredBuild(cx, calls, actuals, e, all, env, lists, params, buf);
    if o.Ok? {
      DeferredPrepared(cx, calls, actuals, e, all, env, lists, params);
      SpillUnbuilt(cx, calls, actuals, e.body, all[e.name := o.value], env, lists + [Entry(e.name, e.value)], params,
                   buf);
    } else {
      DeferredSpoilt(cx, calls, actuals, e, all, env, lists, params);
      DeferredFails(cx, calls, actuals, e, all, env, lists, params, buf);
    }
  }

  lemma DeferredPrepared(cx: Context, calls: nat, actuals: seq<Value>, e: Expr, all: Env, env: Env,
                         lists: seq<Entry>, params: set<string>)
    requires e.Let? && Prepared(cx, calls, actuals, e, all, env, lists, params)
    requires !Inlined(e.value) && ListValued(cx, e.value, lists, params)
    requires !(TailCalls.Discardable(e.value) && V(e.name) !in Free(e.body))
    requires Reference(cx, calls, actuals, e.value, all).Ok?
    ensures Prepared(cx, calls, actuals, e.body, all[e.name := Reference(cx, calls, actuals, e.value, all).value], env,
                     lists + [Entry(e.name, e.value)], params)
  {
    WeightPush(lists, Entry(e.name, e.value));
    DeferredEntries(cx, calls, actuals, e, all, env, lists, params);
  }

  lemma DeferredFails(cx: Context, calls: nat, actuals: seq<Value>, e: Expr, all: Env, env: Env,
                      lists: seq<Entry>, params: set<string>, buf: seq<Value>)
    requires e.Let? && Prepared(cx, calls, actuals, e, all, env, lists, params)
    requires !Inlined(e.value) && ListValued(cx, e.value, lists, params)
    requires !(TailCalls.Discardable(e.value) && V(e.name) !in Free(e.body))
    requires Spoilt(cx, calls, actuals, e.value, env, lists, params, Bound(e.body))
    ensures !Build(cx, calls, actuals, e.body, env, lists + [Entry(e.name, e.value)], params, buf).Wrote?
  {
    var longer := lists + [Entry(e.name, e.value)];
    assert longer[..|lists|] == lists;
    SpoilsBuild(cx, calls, actuals, e.body, env, env, longer, params, buf, |lists|, Bound(e.body));
  }

  /** The reference environment with the variables that came into scope since. */
  ghost function Merge(all: Env, env: Env): (r: Env)
    ensures r.Keys == all.Keys + env.Keys
  {
    map x | x in all.Keys + env.Keys :: if x in all then all[x] else env[x]
  }

  lemma {:induction false} DeferredSpoilt(cx: Context, calls: nat, actuals: seq<Value>, e: Expr, all: Env, env: Env,
                                          lists: seq<Entry>, params: set<string>)
    requires e.Let? && Prepared(cx, calls, actuals, e, all, env, lists, params)
    requires !Inlined(e.value) && ListValued(cx, e.value, lists, params)
    requires !(TailCalls.Discardable(e.value) && V(e.name) !in Free(e.body))
    requires !Reference(cx, calls, actuals, e.value, all).Ok?
    ensures Spoilt(cx, calls, actuals, e.value, env, lists, params, Bound(e.body))
    decreases calls, 0, Weight(lists) + Size(e), e, 0, 0, 0
  {
    var v, added := e.value, Bound(e.body);
    if Accepted(cx, v, lists, params) {
      forall env', buf | Extends(env, env', added)
        ensures !Build(cx, calls, actuals, v, env', lists, params, buf).Wrote?
      {
        var all' := Merge(all, env');
        LaterReady(cx, calls, actuals, e, all, env, env', lists, params);
        if Spill(cx, calls, actuals, v, all', lists, params).None? {
          WrittenExists(cx, calls, actuals, v, all', env', lists, params, buf);
        } else {
          SpillUnbuilt(cx, calls, actuals, v, all', env', lists, params, buf);
        }
      }
    }
  }

  /** A deferred list is as buildable, and as undefined, where it is used as where it is bound. */
  lemma LaterReady(cx: Context, calls: nat, actuals: seq<Value>, e: Expr, all: Env, env: Env, env': Env,
                   lists: seq<Entry>, params: set<string>)
    requires e.Let? && Ready(cx, calls, actuals, e, all, env, lists, params, false)
    requires Extends(env, env', Bound(e.body)) && Accepted(cx, e.value, lists, params)
    ensures Ready(cx, calls, actuals, e.value, Merge(all, env'), env', lists, params, false)
    ensures Reference(cx, calls, actuals, e.value, Merge(all, env')) == Reference(cx, calls, actuals, e.value, all)
  {
    var v, all' := e.value, Merge(all, env');
    assert Grown(all, env, all', env', Bound(e.body));
    GrowEntries(cx, calls, actuals, all, env, all', env', Bound(e.body), lists, false);
    assert AgreeOn(Free(v), all, all');
    Coincidence(cx.m, calls, cx.m.jumps, actuals, v, all, all');
  }

  lemma {:induction false} RunUnbuilt(cx: Context, calls: nat, f: string, vs: seq<Value>, buf: seq<Value>)
    requires Resolving(cx) && f in cx.buffers && RunSpills(cx, calls, f, vs).Some?
    ensures !BuildRun(cx, calls, f, vs, buf).Wrote?
    decreases calls, 1
  {
    var d := cx.m.defs[f];
    var env := Bind(d.params, vs, map[]);
    BindKeys(d.params, vs, map[]);
    assert BuilderDefinition(cx, d, false);
    SpillUnbuilt(cx, calls, vs, d.body, env, env, [], ListParams(d), buf);
  }

  /** Where every deferred list is resolved, the builder succeeds exactly when the list
      exists and fits; it fails for want of space exactly as `BuilderRuns` says. */
  lemma ResolvedExact(cx: Context, calls: nat, f: string, vs: seq<Value>, buf: seq<Value>)
    requires Resolving(cx) && f in cx.buffers
    ensures var r := Run(cx.m, calls, f, vs); var w := BuildRun(cx, calls, f, vs, buf);
      && (w.Wrote? <==> r.Ok? && r.value.Seq? && |r.value.items| <= |buf|)
      && (w.Wrote? ==> w == Wrote(|r.value.items|, r.value.items + buf[|r.value.items|..]))
      && (w.Failed? && w.outcome != Err(OutputTooSmall) ==> !r.Ok? || !r.value.Seq?)
  {
    BuilderRuns(cx, calls, f, vs, buf, false);
    if RunSpills(cx, calls, f, vs).Some? {
      RunUnbuilt(cx, calls, f, vs, buf);
    } else {
      WrittenRuns(cx, calls, f, vs, buf);
    }
  }
}
