/** Builder code is evaluation on demand.

    A recorded list is computed where it is used, so a list that fails matters only if it is
    used.  `OnDemand` is the source program read that way: a recorded list that fails is bound
    to its failure.  `OnDemandExact` says that builder code succeeds exactly when that list
    exists and fits, and that the strict program denotes the same list unless it stops in a
    recorded list (`Spill`); the failure is then lost if and only if the list of the others
    exists and fits.
 */
module LazyLists {
  import opened Ir
  import opened Semantics
  import opened Wrappers
  import opened Builder
  import TailCalls

  /** `outs` holds what each recorded list came to. */
  function OnDemand(cx: Context, calls: nat, actuals: seq<Value>, e: Expr, env: Env,
                    lists: seq<Entry>, outs: seq<Outcome>, params: set<string>): Outcome
    requires |outs| == |lists|
    decreases calls, 0, e
  {
    match e
    case If(c, t, f) =>
      var o := Reference(cx, calls, actuals, c, env);
      if !o.Ok? then o
      else if !o.value.Bool? then Stuck
      else OnDemand(cx, calls, actuals, if o.value.b then t else f, env, lists, outs, params)
    case Let(x, v, b) =>
      if Inlined(v) then
        var u := InlineValue(v);
        OnDemand(cx, calls, actuals, b, env[x := u], lists + [Entry(x, v)], outs + [Ok(u)], params)
      else if TailCalls.Discardable(v) && V(x) !in Free(b) then
        OnDemand(cx, calls, actuals, b, env, lists, outs, params)
      else if ListValued(cx, v, lists, params) then
        var o := OnDemand(cx, calls, actuals, v, env, lists, outs, params);
        OnDemand(cx, calls, actuals, b, env, lists + [Entry(x, v)], outs + [o], params)
      else
        var o := Reference(cx, calls, actuals, v, env);
        if !o.Ok? then o else OnDemand(cx, calls, actuals, b, env[x := o.value], lists, outs, params)
    case Match(s, alts) =>
      var o := Reference(cx, calls, actuals, s, env);
      if !o.Ok? then o else OnDemandAlts(cx, calls, actuals, alts, o.value, env, lists, outs, params)
    case Var(x) =>
      var k := Lookup(lists, x);
      if k >= 0 then outs[k] else if x in params && x in env then Ok(env[x]) else Stuck
    case Prim(_, es) =>
      if IsNil(e) then Ok(Seq([]))
      else if IsCons(e) then
        ConsOutcome(Reference(cx, calls, actuals, es.head, env),
                    OnDemand(cx, calls, actuals, es.tail.head, env, lists, outs, params))
      else if ListField(cx, e) then Reference(cx, calls, actuals, e, env)
      else Stuck
    case Call(f, es) =>
      if f !in cx.buffers then Stuck else
      (match EvalAll(cx.m, calls, cx.m.jumps, actuals, es, env, NoJoin)
       case Fails(o) => o
       case Oks(vs) => if calls == 0 then OutOfFuel else RunOnDemand(cx, calls - 1, f, vs))
    case _ => Stuck
  }

  function OnDemandAlts(cx: Context, calls: nat, actuals: seq<Value>, alts: Alts, v: Value, env: Env,
                        lists: seq<Entry>, outs: seq<Outcome>, params: set<string>): Outcome
    requires |outs| == |lists|
    decreases calls, 0, alts
  {
    match alts
    case NoMore => Stuck
    case Default(b) => OnDemand(cx, calls, actuals, b, env, lists, outs, params)
    case Alt(c, bs, b, rest) =>
      var fs := Fields(c, |bs|, v);
      if fs != [] then OnDemand(cx, calls, actuals, b, Bind(bs, fs[0], env), lists, outs, params)
      else OnDemandAlts(cx, calls, actuals, rest, v, env, lists, outs, params)
  }

  function RunOnDemand(cx: Context, calls: nat, f: string, vs: seq<Value>): Outcome
    decreases calls, 1
  {
    if f !in cx.m.defs || |cx.m.defs[f].params| != |vs| then Stuck else
    var d := cx.m.defs[f];
    OnDemand(cx, calls, vs, d.body, Bind(d.params, vs, map[]), [], [], ListParams(d))
  }

  // ---- evaluation on demand looks at free variables only ----

  /** Two environments that give the free variables the same meaning and know no binder. */
  ghost predicate Alike(free: set<Name>, bound: set<Name>, env: Env, env': Env) {
    AgreeOn(free, env, env') && forall x :: V(x) in bound ==> x !in env && x !in env'
  }

  lemma {:induction false} DemandAgrees(cx: Context, calls: nat, actuals: seq<Value>, e: Expr, env: Env, env': Env,
                                        lists: seq<Entry>, outs: seq<Outcome>, params: set<string>)
    requires |outs| == |lists| && JoinFree(e) && Unique(e) && Alike(Free(e), Bound(e), env, env')
    ensures OnDemand(cx, calls, actuals, e, env, lists, outs, params)
         == OnDemand(cx, calls, actuals, e, env', lists, outs, params)
    decreases e, 1
  {
    match e
    case If(_, _, _) => DemandAgreesIf(cx, calls, actuals, e, env, env', lists, outs, params);
    case Let(_, _, _) => DemandAgreesLet(cx, calls, actuals, e, env, env', lists, outs, params);
    case Match(s, alts) =>
      Coincidence(cx.m, calls, cx.m.jumps, actuals, s, env, env');
      var o := Reference(cx, calls, actuals, s, env);
      if o.Ok? {
        DemandAgreesAlts(cx, calls, actuals, alts, o.value, env, env', lists, outs, params);
      }
    case Var(x) => assert V(x) in Free(e);
    case Prim(_, es) => DemandAgreesPrim(cx, calls, actuals, e, env, env', lists, outs, params);
    case Call(_, es) => CoincidenceAll(cx.m, calls, cx.m.jumps, actuals, es, env, env');
    case _ =>
  }

  lemma {:induction false} DemandAgreesIf(
    cx: Context, calls: nat, actuals: seq<Value>, e: Expr, env: Env, env': Env,
    lists: seq<Entry>, outs: seq<Outcome>, params: set<string>)
    requires e.If? && |outs| == |lists| && JoinFree(e) && Unique(e) && Alike(Free(e), Bound(e), env, env')
    ensures OnDemand(cx, calls, actuals, e, env, lists, outs, params)
         == OnDemand(cx, calls, actuals, e, env', lists, outs, params)
    decreases e, 0
  {
    Coincidence(cx.m, calls, cx.m.jumps, actuals, e.cond, env, env');
    DemandAgrees(cx, calls, actuals, e.yes, env, env', lists, outs, params);
    DemandAgrees(cx, calls, actuals, e.no, env, env', lists, outs, params);
  }

  lemma {:induction false} DemandAgreesPrim(
    cx: Context, calls: nat, actuals: seq<Value>, e: Expr, env: Env, env': Env,
    lists: seq<Entry>, outs: seq<Outcome>, params: set<string>)
    requires e.Prim? && |outs| == |lists| && JoinFree(e) && Unique(e) && Alike(Free(e), Bound(e), env, env')
    ensures OnDemand(cx, calls, actuals, e, env, lists, outs, params)
         == OnDemand(cx, calls, actuals, e, env', lists, outs, params)
    decreases e, 0
  {
    if IsCons(e) {
      ConsParts(e);
      Coincidence(cx.m, calls, cx.m.jumps, actuals, e.args.head, env, env');
      DemandAgrees(cx, calls, actuals, e.args.tail.head, env, env', lists, outs, params);
    } else {
      Coincidence(cx.m, calls, cx.m.jumps, actuals, e, env, env');
    }
  }

  lemma {:induction false} DemandAgreesLet(
    cx: Context, calls: nat, actuals: seq<Value>, e: Expr, env: Env, env': Env,
    lists: seq<Entry>, outs: seq<Outcome>, params: set<string>)
    requires e.Let? && |outs| == |lists| && JoinFree(e) && Unique(e) && Alike(Free(e), Bound(e), env, env')
    ensures OnDemand(cx, calls, actuals, e, env, lists, outs, params)
         == OnDemand(cx, calls, actuals, e, env', lists, outs, params)
    decreases e, 0
  {
    var Let(x, v, b) := e;
    if Inlined(v) {
      var u := InlineValue(v);
      DemandAgrees(cx, calls, actuals, b, env[x := u], env'[x := u], lists + [Entry(x, v)], outs + [Ok(u)], params);
    } else if TailCalls.Discardable(v) && V(x) !in Free(b) {
      DemandAgrees(cx, calls, actuals, b, env, env', lists, outs, params);
    } else if ListValued(cx, v, lists, params) {
      DemandAgreesRecorded(cx, calls, actuals, e, env, env', lists, outs, params);
    } else {
      Coincidence(cx.m, calls, cx.m.jumps, actuals, v, env, env');
      var o := Reference(cx, calls, actuals, v, env);
      if o.Ok? {
        var u := o.value;
        DemandAgrees(cx, calls, actuals, b, env[x := u], env'[x := u], lists, outs, params);
      }
    }
  }

  lemma {:induction false} DemandAgreesRecorded(
    cx: Context, calls: nat, actuals: seq<Value>, e: Expr, env: Env, env': Env,
    lists: seq<Entry>, outs: seq<Outcome>, params: set<string>)
    requires e.Let? && |outs| == |lists| && JoinFree(e) && Unique(e) && Alike(Free(e), Bound(e), env, env')
    requires !Inlined(e.value) && ListValued(cx, e.value, lists, params)
    requires !(TailCalls.Discardable(e.value) && V(e.name) !in Free(e.body))
    ensures OnDemand(cx, calls, actuals, e, env, lists, outs, params)
         == OnDemand(cx, calls, actuals, e, env', lists, outs, params)
    decreases e, 0, 0
  {
    var Let(x, v, b) := e;
    DemandAgrees(cx, calls, actuals, v, env, env', lists, outs, params);
    var o := OnDemand(cx, calls, actuals, v, env, lists, outs, params);
    DemandAgrees(cx, calls, actuals, b, env, env', lists + [Entry(x, v)], outs + [o], params);
  }

  lemma {:induction false} DemandAgreesAlts(
    cx: Context, calls: nat, actuals: seq<Value>, alts: Alts, v: Value, env: Env, env': Env,
    lists: seq<Entry>, outs: seq<Outcome>, params: set<string>)
    requires |outs| == |lists| && JoinFreeAlts(alts) && UniqueAlts(alts)
    requires Alike(FreeAlts(alts), BoundAlts(alts), env, env')
    ensures OnDemandAlts(cx, calls, actuals, alts, v, env, lists, outs, params)
         == OnDemandAlts(cx, calls, actuals, alts, v, env', lists, outs, params)
    decreases alts
  {
    match alts
    case NoMore =>
    case Default(b) => DemandAgrees(cx, calls, actuals, b, env, env', lists, outs, params);
    case Alt(c, bs, b, rest) =>
      var fs := Fields(c, |bs|, v);
      if fs != [] {
        BindAgree(Free(b), bs, fs[0], env, env');
        BindKeys(bs, fs[0], env);
        BindKeys(bs, fs[0], env');
        DemandAgrees(cx, calls, actuals, b, Bind(bs, fs[0], env), Bind(bs, fs[0], env'), lists, outs, params);
      } else {
        DemandAgreesAlts(cx, calls, actuals, rest, v, env, env', lists, outs, params);
      }
  }

  // ---- builder code computes what evaluation on demand denotes ----

  /** Success with exactly the list, if it is one and fits. */
  ghost predicate Fills(z: Outcome, w: Written, buf: seq<Value>) {
    if z.Ok? && z.value.Seq? && |z.value.items| <= |buf|
    then w == Wrote(|z.value.items|, z.value.items + buf[|z.value.items|..])
    else w.Failed?
  }

  /** `env'` is `env` with new variables, all of them named in `added`. */
  ghost predicate Extends(env: Env, env': Env, added: set<Name>) {
    && (forall x :: x in env ==> x in env' && env'[x] == env[x])
    && (forall x :: x in env' && x !in env ==> V(x) in added)
  }

  /** However many variables come into scope, building `v` comes to `z`. */
  ghost predicate Settled(cx: Context, calls: nat, actuals: seq<Value>, v: Expr, z: Outcome, env: Env,
                          lists: seq<Entry>, params: set<string>, added: set<Name>)
  {
    forall env', buf :: Extends(env, env', added) ==>
      Fills(z, Build(cx, calls, actuals, v, env', lists, params, buf), buf)
  }

  ghost predicate AllSettled(cx: Context, calls: nat, actuals: seq<Value>, env: Env, lists: seq<Entry>,
                             outs: seq<Outcome>, params: set<string>, added: set<Name>)
  {
    && |outs| == |lists|
    && (forall k :: 0 <= k < |lists| ==>
          Settled(cx, calls, actuals, lists[k].value, outs[k], env, lists[..k], params, added))
  }

  /** Names in scope, and binders that hide none of them. */
  ghost predicate Within(free: set<Name>, bound: set<Name>, env: Env, lists: seq<Entry>) {
    && (forall n :: n in free ==> n.V? && (n.name in env || n.name in Names(lists)))
    && (forall x :: x in env || x in Names(lists) ==> V(x) !in bound)
  }

  ghost predicate Placed(cx: Context, calls: nat, actuals: seq<Value>, e: Expr, env: Env, lists: seq<Entry>,
                         outs: seq<Outcome>, params: set<string>)
  {
    && BuilderModule(cx, false) && JoinFree(e) && Unique(e) && Within(Free(e), Bound(e), env, lists)
    && AllSettled(cx, calls, actuals, env, lists, outs, params, Bound(e))
  }

  ghost predicate PlacedAlts(cx: Context, calls: nat, actuals: seq<Value>, alts: Alts, env: Env, lists: seq<Entry>,
                             outs: seq<Outcome>, params: set<string>)
  {
    && BuilderModule(cx, false) && JoinFreeAlts(alts) && UniqueAlts(alts)
    && Within(FreeAlts(alts), BoundAlts(alts), env, lists)
    && AllSettled(cx, calls, actuals, env, lists, outs, params, BoundAlts(alts))
  }

  lemma SettleMore(cx: Context, calls: nat, actuals: seq<Value>, env: Env, env2: Env, lists: seq<Entry>,
                   outs: seq<Outcome>, params: set<string>, added: set<Name>, fewer: set<Name>)
    requires AllSettled(cx, calls, actuals, env, lists, outs, params, added)
    requires Extends(env, env2, added) && fewer <= added
    ensures AllSettled(cx, calls, actuals, env2, lists, outs, params, fewer)
  {
    forall k | 0 <= k < |lists|
      ensures Settled(cx, calls, actuals, lists[k].value, outs[k], env2, lists[..k], params, fewer)
    {
      forall env', buf | Extends(env2, env', fewer)
        ensures Fills(outs[k], Build(cx, calls, actuals, lists[k].value, env', lists[..k], params, buf), buf)
      {
        assert Extends(env, env', added);
      }
    }
  }

  lemma SettlePush(cx: Context, calls: nat, actuals: seq<Value>, env: Env, lists: seq<Entry>, outs: seq<Outcome>,
                   params: set<string>, added: set<Name>, entry: Entry, z: Outcome)
    requires AllSettled(cx, calls, actuals, env, lists, outs, params, added)
    requires Settled(cx, calls, actuals, entry.value, z, env, lists, params, added)
    ensures AllSettled(cx, calls, actuals, env, lists + [entry], outs + [z], params, added)
  {
    var longer, zs := lists + [entry], outs + [z];
    forall k | 0 <= k < |longer|
      ensures Settled(cx, calls, actuals, longer[k].value, zs[k], env, longer[..k], params, added)
    {
      assert longer[..k] == lists[..k];
      assert lists[..|lists|] == lists;
    }
  }

  lemma {:induction false} DemandBuilds(cx: Context, calls: nat, actuals: seq<Value>, e: Expr, env: Env,
                                        lists: seq<Entry>, outs: seq<Outcome>, params: set<string>, buf: seq<Value>)
    requires Placed(cx, calls, actuals, e, env, lists, outs, params)
    ensures Fills(OnDemand(cx, calls, actuals, e, env, lists, outs, params),
                  Build(cx, calls, actuals, e, env, lists, params, buf), buf)
    decreases calls, 0, e, 1
  {
    match e
    case If(c, t, f) =>
      SettleMore(cx, calls, actuals, env, env, lists, outs, params, Bound(e), Bound(t));
      SettleMore(cx, calls, actuals, env, env, lists, outs, params, Bound(e), Bound(f));
      DemandBuilds(cx, calls, actuals, t, env, lists, outs, params, buf);
      DemandBuilds(cx, calls, actuals, f, env, lists, outs, params, buf);
    case Let(_, _, _) => DemandBuildsLet(cx, calls, actuals, e, env, lists, outs, params, buf);
    case Match(s, alts) =>
      var o := Reference(cx, calls, actuals, s, env);
      if o.Ok? {
        SettleMore(cx, calls, actuals, env, env, lists, outs, params, Bound(e), BoundAlts(alts));
        DemandBuildsAlts(cx, calls, actuals, alts, o.value, env, lists, outs, params, buf);
      }
    case Var(x) =>
      var k := Lookup(lists, x);
      if k >= 0 {
        assert Settled(cx, calls, actuals, lists[k].value, outs[k], env, lists[..k], params, Bound(e));
        assert Extends(env, env, Bound(e));
      }
    case Prim(_, _) => DemandBuildsPrim(cx, calls, actuals, e, env, lists, outs, params, buf);
    case Call(f, es) =>
      var os := EvalAll(cx.m, calls, cx.m.jumps, actuals, es, env, NoJoin);
      if f in cx.buffers && os.Oks? && calls > 0 {
        RunBuilds(cx, calls - 1, f, os.values, buf);
      }
    case _ =>
  }

  lemma {:induction false} DemandBuildsPrim(
    cx: Context, calls: nat, actuals: seq<Value>, e: Expr, env: Env, lists: seq<Entry>,
    outs: seq<Outcome>, params: set<string>, buf: seq<Value>)
    requires e.Prim? && Placed(cx, calls, actuals, e, env, lists, outs, params)
    ensures Fills(OnDemand(cx, calls, actuals, e, env, lists, outs, params),
                  Build(cx, calls, actuals, e, env, lists, params, buf), buf)
    decreases calls, 0, e, 0
  {
    if IsNil(e) {
      assert [] + buf[0..] == buf;
    } else if IsCons(e) {
      ConsParts(e);
      var t := e.args.tail.head;
      SettleMore(cx, calls, actuals, env, env, lists, outs, params, Bound(e), Bound(t));
      if buf != [] {
        DemandBuilds(cx, calls, actuals, t, env, lists, outs, params, buf[1..]);
        ConsFills(Reference(cx, calls, actuals, e.args.head, env),
                  OnDemand(cx, calls, actuals, t, env, lists, outs, params),
                  Build(cx, calls, actuals, t, env, lists, params, buf[1..]), buf);
      }
    }
  }

  lemma ConsFills(o: Outcome, z: Outcome, w: Written, buf: seq<Value>)
    requires buf != [] && Tail(w, buf[1..]) && Fills(z, w, buf[1..])
    ensures o.Ok? ==> Fills(ConsOutcome(o, z), Behind(o.value, w, buf), buf)
  {
    if o.Ok? && z.Ok? && z.value.Seq? && |z.value.items| <= |buf| - 1 {
      var xs := z.value.items;
      assert [o.value] + (xs + buf[1..][|xs|..]) == ([o.value] + xs) + buf[|xs| + 1..];
    }
  }

  lemma {:induction false} DemandBuildsLet(
    cx: Context, calls: nat, actuals: seq<Value>, e: Expr, env: Env, lists: seq<Entry>,
    outs: seq<Outcome>, params: set<string>, buf: seq<Value>)
    requires e.Let? && Placed(cx, calls, actuals, e, env, lists, outs, params)
    ensures Fills(OnDemand(cx, calls, actuals, e, env, lists, outs, params),
                  Build(cx, calls, actuals, e, env, lists, params, buf), buf)
    decreases calls, 0, e, 0
  {
    var Let(x, v, b) := e;
    WeightPush(lists, Entry(x, v));
    if Inlined(v) {
      var u := InlineValue(v);
      SettleMore(cx, calls, actuals, env, env[x := u], lists, outs, params, Bound(e), Bound(b));
      InlinedSettled(cx, calls, actuals, v, env[x := u], lists, params, Bound(b));
      SettlePush(cx, calls, actuals, env[x := u], lists, outs, params, Bound(b), Entry(x, v), Ok(u));
      PushWithin(e, env, env[x := u], lists, lists + [Entry(x, v)]);
      DemandBuilds(cx, calls, actuals, b, env[x := u], lists + [Entry(x, v)], outs + [Ok(u)], params, buf);
    } else if TailCalls.Discardable(v) && V(x) !in Free(b) {
      SettleMore(cx, calls, actuals, env, env, lists, outs, params, Bound(e), Bound(b));
      DemandBuilds(cx, calls, actuals, b, env, lists, outs, params, buf);
    } else if ListValued(cx, v, lists, params) {
      DemandDefers(cx, calls, actuals, e, env, lists, outs, params);
      var z := OnDemand(cx, calls, actuals, v, env, lists, outs, params);
      PushWithin(e, env, env, lists, lists + [Entry(x, v)]);
      DemandBuilds(cx, calls, actuals, b, env, lists + [Entry(x, v)], outs + [z], params, buf);
    } else {
      var o := Reference(cx, calls, actuals, v, env);
      if o.Ok? {
        assert JoinFree(v) && !v.Jp?;
        assert env[x := o.value].Keys == env.Keys + {x};
        SettleMore(cx, calls, actuals, env, env[x := o.value], lists, outs, params, Bound(e), Bound(b));
        DemandBuilds(cx, calls, actuals, b, env[x := o.value], lists, outs, params, buf);
      }
    }
  }

  lemma PushWithin(e: Expr, env: Env, env': Env, lists: seq<Entry>, longer: seq<Entry>)
    requires e.Let? && JoinFree(e) && Unique(e) && Within(Free(e), Bound(e), env, lists)
    requires longer == lists + [Entry(e.name, e.value)] && env.Keys <= env'.Keys <= env.Keys + {e.name}
    ensures Within(Free(e.body), Bound(e.body), env', longer)
  {
    assert longer[|lists|].name == e.name;
    forall y | y in Names(lists)
      ensures y in Names(longer)
    {
      var k :| 0 <= k < |lists| && lists[k].name == y;
      assert longer[k].name == y;
    }
  }

  lemma InlinedSettled(cx: Context, calls: nat, actuals: seq<Value>, v: Expr, env: Env, lists: seq<Entry>,
                       params: set<string>, added: set<Name>)
    requires Inlined(v)
    ensures Settled(cx, calls, actuals, v, Ok(InlineValue(v)), env, lists, params, added)
  {
    forall env', buf | Extends(env, env', added)
      ensures Fills(Ok(InlineValue(v)), Build(cx, calls, actuals, v, env', lists, params, buf), buf)
    {
      assert [] + buf[0..] == buf;
    }
  }

  /** A recorded list comes to the same wherever the body uses it. */
  lemma {:induction false} DemandDefers(
    cx: Context, calls: nat, actuals: seq<Value>, e: Expr, env: Env, lists: seq<Entry>,
    outs: seq<Outcome>, params: set<string>)
    requires e.Let? && Placed(cx, calls, actuals, e, env, lists, outs, params)
    ensures AllSettled(cx, calls, actuals, env, lists + [Entry(e.name, e.value)],
                       outs + [OnDemand(cx, calls, actuals, e.value, env, lists, outs, params)], params, Bound(e.body))
    decreases calls, 0, e, 0, 0
  {
    var Let(x, v, b) := e;
    var z := OnDemand(cx, calls, actuals, v, env, lists, outs, params);
    forall env', buf | Extends(env, env', Bound(b))
      ensures Fills(z, Build(cx, calls, actuals, v, env', lists, params, buf), buf)
    {
      SettleMore(cx, calls, actuals, env, env', lists, outs, params, Bound(e), Bound(v));
      assert Alike(Free(v), Bound(v), env, env');
      DemandAgrees(cx, calls, actuals, v, env, env', lists, outs, params);
      DemandBuilds(cx, calls, actuals, v, env', lists, outs, params, buf);
    }
    SettleMore(cx, calls, actuals, env, env, lists, outs, params, Bound(e), Bound(b));
    SettlePush(cx, calls, actuals, env, lists, outs, params, Bound(b), Entry(x, v), z);
  }

  lemma {:induction false} DemandBuildsAlts(
    cx: Context, calls: nat, actuals: seq<Value>, alts: Alts, v: Value, env: Env, lists: seq<Entry>,
    outs: seq<Outcome>, params: set<string>, buf: seq<Value>)
    requires PlacedAlts(cx, calls, actuals, alts, env, lists, outs, params)
    ensures Fills(OnDemandAlts(cx, calls, actuals, alts, v, env, lists, outs, params),
                  BuildAlts(cx, calls, actuals, alts, v, env, lists, params, buf), buf)
    decreases calls, 0, alts
  {
    match alts
    case NoMore =>
    case Default(b) => DemandBuilds(cx, calls, actuals, b, env, lists, outs, params, buf);
    case Alt(c, bs, b, rest) =>
      var fs := Fields(c, |bs|, v);
      if fs != [] {
        BindKeys(bs, fs[0], env);
        assert forall y :: y in bs ==> V(y) in BoundAlts(alts);
        SettleMore(cx, calls, actuals, env, Bind(bs, fs[0], env), lists, outs, params, BoundAlts(alts), Bound(b));
        DemandBuilds(cx, calls, actuals, b, Bind(bs, fs[0], env), lists, outs, params, buf);
      } else {
        SettleMore(cx, calls, actuals, env, env, lists, outs, params, BoundAlts(alts), BoundAlts(rest));
        DemandBuildsAlts(cx, calls, actuals, rest, v, env, lists, outs, params, buf);
      }
  }

  lemma {:induction false} RunBuilds(cx: Context, calls: nat, f: string, vs: seq<Value>, buf: seq<Value>)
    requires BuilderModule(cx, false) && f in cx.buffers
    ensures Fills(RunOnDemand(cx, calls, f, vs), BuildRun(cx, calls, f, vs, buf), buf)
    decreases calls, 1
  {
    if f in cx.m.defs && |cx.m.defs[f].params| == |vs| {
      var d := cx.m.defs[f];
      BindKeys(d.params, vs, map[]);
      assert BuilderDefinition(cx, d, false);
      DemandBuilds(cx, calls, vs, d.body, Bind(d.params, vs, map[]), [], [], ListParams(d), buf);
    }
  }

  // ---- where the strict program stops in a recorded list ----

  /** The failure of the first recorded list that fails, if evaluation gets that far. */
  function Spill(cx: Context, calls: nat, actuals: seq<Value>, e: Expr, all: Env,
                 lists: seq<Entry>, params: set<string>): Option<Outcome>
    decreases calls, 0, e
  {
    match e
    case If(c, t, f) =>
      var o := Reference(cx, calls, actuals, c, all);
      if !o.Ok? || !o.value.Bool? then None
      else Spill(cx, calls, actuals, if o.value.b then t else f, all, lists, params)
    case Let(x, v, b) =>
      var o := Reference(cx, calls, actuals, v, all);
      if Inlined(v) then Spill(cx, calls, actuals, b, all[x := InlineValue(v)], lists + [Entry(x, v)], params)
      else if TailCalls.Discardable(v) && V(x) !in Free(b) then Spill(cx, calls, actuals, b, all, lists, params)
      else if ListValued(cx, v, lists, params) then
        if !o.Ok? then Some(o) else Spill(cx, calls, actuals, b, all[x := o.value], lists + [Entry(x, v)], params)
      else if !o.Ok? then None
      else Spill(cx, calls, actuals, b, all[x := o.value], lists, params)
    case Match(s, alts) =>
      var o := Reference(cx, calls, actuals, s, all);
      if !o.Ok? then None else SpillAlts(cx, calls, actuals, alts, o.value, all, lists, params)
    case Prim(_, es) =>
      if IsCons(e) && Reference(cx, calls, actuals, es.head, all).Ok?
      then Spill(cx, calls, actuals, es.tail.head, all, lists, params) else None
    case Call(f, es) =>
      var os := EvalAll(cx.m, calls, cx.m.jumps, actuals, es, all, NoJoin);
      if f in cx.buffers && os.Oks? && calls > 0 then RunSpills(cx, calls - 1, f, os.values) else None
    case _ => None
  }

  function SpillAlts(cx: Context, calls: nat, actuals: seq<Value>, alts: Alts, v: Value, all: Env,
                     lists: seq<Entry>, params: set<string>): Option<Outcome>
    decreases calls, 0, alts
  {
    match alts
    case NoMore => None
    case Default(b) => Spill(cx, calls, actuals, b, all, lists, params)
    case Alt(c, bs, b, rest) =>
      var fs := Fields(c, |bs|, v);
      if fs != [] then Spill(cx, calls, actuals, b, Bind(bs, fs[0], all), lists, params)
      else SpillAlts(cx, calls, actuals, rest, v, all, lists, params)
  }

  function RunSpills(cx: Context, calls: nat, f: string, vs: seq<Value>): Option<Outcome>
    decreases calls, 1
  {
    if f !in cx.m.defs || |cx.m.defs[f].params| != |vs| then None else
    var d := cx.m.defs[f];
    Spill(cx, calls, vs, d.body, Bind(d.params, vs, map[]), [], ListParams(d))
  }

  /** The strict program has that failure. */
  ghost predicate Stopped(s: Option<Outcome>, r: Outcome) {
    s.Some? ==> r == s.value && !r.Ok?
  }

  lemma {:induction false} SpillStops(cx: Context, calls: nat, actuals: seq<Value>, e: Expr, all: Env,
                                      lists: seq<Entry>, params: set<string>)
    requires BuilderModule(cx, false) && JoinFree(e)
    ensures Stopped(Spill(cx, calls, actuals, e, all, lists, params), Reference(cx, calls, actuals, e, all))
    decreases calls, 0, e, 1
  {
    match e
    case If(c, t, f) =>
      SpillStops(cx, calls, actuals, t, all, lists, params);
      SpillStops(cx, calls, actuals, f, all, lists, params);
    case Let(_, _, _) => SpillStopsLet(cx, calls, actuals, e, all, lists, params);
    case Match(s, alts) =>
      var o := Reference(cx, calls, actuals, s, all);
      if o.Ok? {
        SpillStopsAlts(cx, calls, actuals, alts, o.value, all, lists, params);
      }
    case Prim(_, es) =>
      if IsCons(e) {
        ConsParts(e);
        ConsReference(cx, calls, actuals, e, all);
        SpillStops(cx, calls, actuals, es.tail.head, all, lists, params);
      }
    case Call(f, es) =>
      var os := EvalAll(cx.m, calls, cx.m.jumps, actuals, es, all, NoJoin);
      if f in cx.buffers && os.Oks? && calls > 0 {
        RunStops(cx, calls - 1, f, os.values);
      }
    case _ =>
  }

  lemma {:induction false} SpillStopsLet(cx: Context, calls: nat, actuals: seq<Value>, e: Expr, all: Env,
                                         lists: seq<Entry>, params: set<string>)
    requires e.Let? && BuilderModule(cx, false) && JoinFree(e)
    ensures Stopped(Spill(cx, calls, actuals, e, all, lists, params), Reference(cx, calls, actuals, e, all))
    decreases calls, 0, e, 0
  {
    var Let(x, v, b) := e;
    assert JoinFree(v) && !v.Jp?;
    var o := Reference(cx, calls, actuals, v, all);
    if Inlined(v) {
      InlinedValue(cx, calls, actuals, v, all);
      SpillStops(cx, calls, actuals, b, all[x := InlineValue(v)], lists + [Entry(x, v)], params);
    } else if TailCalls.Discardable(v) && V(x) !in Free(b) {
      TailCalls.DiscardableOk(cx.m, calls, cx.m.jumps, actuals, v, all);
      Coincidence(cx.m, calls, cx.m.jumps, actuals, b, all, all[x := o.value]);
      SpillStops(cx, calls, actuals, b, all, lists, params);
    } else if o.Ok? {
      var longer := if ListValued(cx, v, lists, params) then lists + [Entry(x, v)] else lists;
      SpillStops(cx, calls, actuals, b, all[x := o.value], longer, params);
    }
  }

  lemma {:induction false} SpillStopsAlts(cx: Context, calls: nat, actuals: seq<Value>, alts: Alts, v: Value, all: Env,
                                          lists: seq<Entry>, params: set<string>)
    requires BuilderModule(cx, false) && JoinFreeAlts(alts)
    ensures Stopped(SpillAlts(cx, calls, actuals, alts, v, all, lists, params),
                    EvalAlts(cx.m, calls, cx.m.jumps, actuals, alts, v, all, NoJoin))
    decreases calls, 0, alts
  {
    match alts
    case NoMore =>
    case Default(b) => SpillStops(cx, calls, actuals, b, all, lists, params);
    case Alt(c, bs, b, rest) =>
      var fs := Fields(c, |bs|, v);
      if fs != [] {
        SpillStops(cx, calls, actuals, b, Bind(bs, fs[0], all), lists, params);
      } else {
        SpillStopsAlts(cx, calls, actuals, rest, v, all, lists, params);
      }
  }

  lemma {:induction false} RunStops(cx: Context, calls: nat, f: string, vs: seq<Value>)
    requires BuilderModule(cx, false) && f in cx.buffers
    ensures Stopped(RunSpills(cx, calls, f, vs), Run(cx.m, calls, f, vs))
    decreases calls, 1
  {
    if f in cx.m.defs && |cx.m.defs[f].params| == |vs| {
      var d := cx.m.defs[f];
      assert BuilderDefinition(cx, d, false);
      SpillStops(cx, calls, vs, d.body, Bind(d.params, vs, map[]), [], ListParams(d));
    }
  }

  // ---- builder code succeeds only when the list exists ----

  /** The strict program does not stop in a recorded list. */
  ghost predicate Strict(cx: Context, calls: nat, actuals: seq<Value>, e: Expr, all: Env, env: Env,
                         lists: seq<Entry>, params: set<string>)
  {
    && Ready(cx, calls, actuals, e, all, env, lists, params, false)
    && (Spill(cx, calls, actuals, e, all, lists, params).None? || Reference(cx, calls, actuals, e, all).Ok?)
  }

  ghost predicate StrictAlts(cx: Context, calls: nat, actuals: seq<Value>, alts: Alts, v: Value, all: Env, env: Env,
                             lists: seq<Entry>, params: set<string>)
  {
    && ReadyAlts(cx, calls, actuals, alts, all, env, lists, params, false)
    && (SpillAlts(cx, calls, actuals, alts, v, all, lists, params).None?
        || EvalAlts(cx.m, calls, cx.m.jumps, actuals, alts, v, all, NoJoin).Ok?)
  }

  ghost predicate Sound(reference: Outcome, w: Written) {
    w.Wrote? ==> reference.Ok? && reference.value.Seq?
  }

  lemma {:induction false} WrittenExists(cx: Context, calls: nat, actuals: seq<Value>, e: Expr, all: Env, env: Env,
                                         lists: seq<Entry>, params: set<string>, buf: seq<Value>)
    requires Strict(cx, calls, actuals, e, all, env, lists, params)
    ensures Sound(Reference(cx, calls, actuals, e, all), Build(cx, calls, actuals, e, env, lists, params, buf))
    decreases calls, 0, Weight(lists) + Size(e), e, 1
  {
    match e
    case If(_, _, _) => WrittenIf(cx, calls, actuals, e, all, env, lists, params, buf);
    case Let(_, _, _) => WrittenLet(cx, calls, actuals, e, all, env, lists, params, buf);
    case Match(_, _) => WrittenMatch(cx, calls, actuals, e, all, env, lists, params, buf);
    case Var(_) => WrittenVar(cx, calls, actuals, e, all, env, lists, params, buf);
    case Prim(_, _) => WrittenPrim(cx, calls, actuals, e, all, env, lists, params, buf);
    case Call(_, _) => WrittenCall(cx, calls, actuals, e, all, env, lists, params, buf);
    case _ =>
  }

  lemma {:induction false} WrittenIf(cx: Context, calls: nat, actuals: seq<Value>, e: Expr, all: Env, env: Env,
                                     lists: seq<Entry>, params: set<string>, buf: seq<Value>)
    requires e.If? && Strict(cx, calls, actuals, e, all, env, lists, params)
    ensures Sound(Reference(cx, calls, actuals, e, all), Build(cx, calls, actuals, e, env, lists, params, buf))
    decreases calls, 0, Weight(lists) + Size(e), e, 0
  {
    ValueEval(cx, calls, actuals, e.cond, all, env, lists, false);
    var o := Reference(cx, calls, actuals, e.cond, all);
    if o.Ok? && o.value.Bool? {
      WrittenExists(cx, calls, actuals, if o.value.b then e.yes else e.no, all, env, lists, params, buf);
    }
  }

  lemma {:induction false} WrittenMatch(cx: Context, calls: nat, actuals: seq<Value>, e: Expr, all: Env, env: Env,
                                        lists: seq<Entry>, params: set<string>, buf: seq<Value>)
    requires e.Match? && Strict(cx, calls, actuals, e, all, env, lists, params)
    ensures Sound(Reference(cx, calls, actuals, e, all), Build(cx, calls, actuals, e, env, lists, params, buf))
    decreases calls, 0, Weight(lists) + Size(e), e, 0
  {
    ValueEval(cx, calls, actuals, e.scrut, all, env, lists, false);
    var o := Reference(cx, calls, actuals, e.scrut, all);
    if o.Ok? {
      WrittenAlts(cx, calls, actuals, e.alts, o.value, all, env, lists, params, buf);
    }
  }

  lemma {:induction false} WrittenAlts(cx: Context, calls: nat, actuals: seq<Value>, alts: Alts, v: Value, all: Env,
                                       env: Env, lists: seq<Entry>, params: set<string>, buf: seq<Value>)
    requires StrictAlts(cx, calls, actuals, alts, v, all, env, lists, params)
    ensures Sound(EvalAlts(cx.m, calls, cx.m.jumps, actuals, alts, v, all, NoJoin),
                  BuildAlts(cx, calls, actuals, alts, v, env, lists, params, buf))
    decreases calls, 0, Weight(lists) + SizeAlts(alts), alts
  {
    match alts
    case NoMore =>
    case Default(b) => WrittenExists(cx, calls, actuals, b, all, env, lists, params, buf);
    case Alt(c, bs, b, rest) =>
      var fs := Fields(c, |bs|, v);
      if fs != [] {
        AltReady(cx, calls, actuals, alts, fs[0], all, env, lists, params);
        WrittenExists(cx, calls, actuals, b, Bind(bs, fs[0], all), Bind(bs, fs[0], env), lists, params, buf);
      } else {
        WrittenAlts(cx, calls, actuals, rest, v, all, env, lists, params, buf);
      }
  }

  lemma AltReady(cx: Context, calls: nat, actuals: seq<Value>, alts: Alts, fields: seq<Value>, all: Env,
                 env: Env, lists: seq<Entry>, params: set<string>)
    requires alts.Alt? && |fields| == |alts.binders|
    requires ReadyAlts(cx, calls, actuals, alts, all, env, lists, params, false)
    ensures Ready(cx, calls, actuals, alts.body, Bind(alts.binders, fields, all), Bind(alts.binders, fields, env),
                  lists, params, false)
  {
    var bs := alts.binders;
    BindGrown(bs, fields, all, env);
    GrowEntries(cx, calls, actuals, all, env, Bind(bs, fields, all), Bind(bs, fields, env), Vars(bs), lists, false);
  }

  lemma {:induction false} WrittenVar(cx: Context, calls: nat, actuals: seq<Value>, e: Expr, all: Env, env: Env,
                                      lists: seq<Entry>, params: set<string>, buf: seq<Value>)
    requires e.Var? && Strict(cx, calls, actuals, e, all, env, lists, params)
    ensures Sound(Reference(cx, calls, actuals, e, all), Build(cx, calls, actuals, e, env, lists, params, buf))
    decreases calls, 0, Weight(lists) + Size(e), e, 0
  {
    var k := Lookup(lists, e.name);
    if k >= 0 {
      WeightResolve(lists, k);
      assert Deferred(cx, calls, actuals, all, env, lists, k);
      PrefixEntries(cx, calls, actuals, all, env, lists, k, false);
      WrittenExists(cx, calls, actuals, lists[k].value, all, env, lists[..k], params, buf);
    } else {
      assert e.name !in Names(lists);
      assert V(e.name) in Free(e);
    }
  }

  lemma {:induction false} WrittenPrim(cx: Context, calls: nat, actuals: seq<Value>, e: Expr, all: Env, env: Env,
                                       lists: seq<Entry>, params: set<string>, buf: seq<Value>)
    requires e.Prim? && Strict(cx, calls, actuals, e, all, env, lists, params)
    ensures Sound(Reference(cx, calls, actuals, e, all), Build(cx, calls, actuals, e, env, lists, params, buf))
    decreases calls, 0, Weight(lists) + Size(e), e, 0
  {
    if IsNil(e) {
      assert EvalAll(cx.m, calls, cx.m.jumps, actuals, Nil, all, NoJoin) == Oks([]);
    } else if IsCons(e) {
      WrittenCons(cx, calls, actuals, e, all, env, lists, params, buf);
    } else {
      ValueEval(cx, calls, actuals, e, all, env, lists, false);
    }
  }

  lemma {:induction false} WrittenCons(cx: Context, calls: nat, actuals: seq<Value>, e: Expr, all: Env, env: Env,
                                       lists: seq<Entry>, params: set<string>, buf: seq<Value>)
    requires IsCons(e) && Strict(cx, calls, actuals, e, all, env, lists, params)
    ensures Sound(Reference(cx, calls, actuals, e, all), Build(cx, calls, actuals, e, env, lists, params, buf))
    decreases calls, 0, Weight(lists) + Size(e), e, 0, 0
  {
    ConsSize(e);
    ConsParts(e);
    ValueEval(cx, calls, actuals, e.args.head, all, env, lists, false);
    ConsReference(cx, calls, actuals, e, all);
    if buf != [] && Reference(cx, calls, actuals, e.args.head, all).Ok? {
      WrittenExists(cx, calls, actuals, e.args.tail.head, all, env, lists, params, buf[1..]);
    }
  }

  lemma {:induction false} WrittenCall(cx: Context, calls: nat, actuals: seq<Value>, e: Expr, all: Env, env: Env,
                                       lists: seq<Entry>, params: set<string>, buf: seq<Value>)
    requires e.Call? && Strict(cx, calls, actuals, e, all, env, lists, params)
    ensures Sound(Reference(cx, calls, actuals, e, all), Build(cx, calls, actuals, e, env, lists, params, buf))
    decreases calls, 0, Weight(lists) + Size(e), e, 0
  {
    ValueAgrees(cx, calls, actuals, FreeAll(e.args), all, env, lists, false);
    CoincidenceAll(cx.m, calls, cx.m.jumps, actuals, e.args, env, all);
    var os := EvalAll(cx.m, calls, cx.m.jumps, actuals, e.args, all, NoJoin);
    if os.Oks? && calls > 0 {
      WrittenRuns(cx, calls - 1, e.callee, os.values, buf);
    }
  }

  lemma {:induction false} WrittenLet(cx: Context, calls: nat, actuals: seq<Value>, e: Expr, all: Env, env: Env,
                                      lists: seq<Entry>, params: set<string>, buf: seq<Value>)
    requires e.Let? && Strict(cx, calls, actuals, e, all, env, lists, params)
    ensures Sound(Reference(cx, calls, actuals, e, all), Build(cx, calls, actuals, e, env, lists, params, buf))
    decreases calls, 0, Weight(lists) + Size(e), e, 0
  {
    var Let(x, v, b) := e;
    WeightPush(lists, Entry(x, v));
    if Inlined(v) {
      WrittenInlined(cx, calls, actuals, e, all, env, lists, params, buf);
    } else if TailCalls.Discardable(v) && V(x) !in Free(b) {
      WrittenDiscarded(cx, calls, actuals, e, all, env, lists, params, buf);
    } else if ListValued(cx, v, lists, params) {
      WrittenDeferred(cx, calls, actuals, e, all, env, lists, params, buf);
    } else {
      WrittenBound(cx, calls, actuals, e, all, env, lists, params, buf);
    }
  }

  lemma {:induction false} WrittenDiscarded(cx: Context, calls: nat, actuals: seq<Value>, e: Expr, all: Env, env: Env,
                                            lists: seq<Entry>, params: set<string>, buf: seq<Value>)
    requires e.Let? && !Inlined(e.value) && TailCalls.Discardable(e.value) && V(e.name) !in Free(e.body)
    requires Strict(cx, calls, actuals, e, all, env, lists, params)
    ensures Sound(Reference(cx, calls, actuals, e, all), Build(cx, calls, actuals, e, env, lists, params, buf))
    decreases calls, 0, Weight(lists) + Size(e), e, 0, 0
  {
    TailCalls.DiscardableOk(cx.m, calls, cx.m.jumps, actuals, e.value, all);
    var o := Reference(cx, calls, actuals, e.value, all);
    Coincidence(cx.m, calls, cx.m.jumps, actuals, e.body, all, all[e.name := o.value]);
    WrittenExists(cx, calls, actuals, e.body, all, env, lists, params, buf);
  }

  lemma {:induction false} WrittenInlined(cx: Context, calls: nat, actuals: seq<Value>, e: Expr, all: Env, env: Env,
                                          lists: seq<Entry>, params: set<string>, buf: seq<Value>)
    requires e.Let? && Inlined(e.value) && Strict(cx, calls, actuals, e, all, env, lists, params)
    ensures Sound(Reference(cx, calls, actuals, e, all), Build(cx, calls, actuals, e, env, lists, params, buf))
    decreases calls, 0, Weight(lists) + Size(e), e, 0, 0
  {
    var Let(x, v, b) := e;
    WeightPush(lists, Entry(x, v));
    InlinedValue(cx, calls, actuals, v, all);
    InlinedEntries(cx, calls, actuals, x, v, all, env, lists, false);
    WrittenExists(cx, calls, actuals, b, all[x := InlineValue(v)], env[x := InlineValue(v)],
                  lists + [Entry(x, v)], params, buf);
  }

  lemma {:induction false} WrittenBound(cx: Context, calls: nat, actuals: seq<Value>, e: Expr, all: Env, env: Env,
                                        lists: seq<Entry>, params: set<string>, buf: seq<Value>)
    requires e.Let? && Strict(cx, calls, actuals, e, all, env, lists, params)
    requires !Inlined(e.value) && !ListValued(cx, e.value, lists, params)
    requires !(TailCalls.Discardable(e.value) && V(e.name) !in Free(e.body))
    ensures Sound(Reference(cx, calls, actuals, e, all), Build(cx, calls, actuals, e, env, lists, params, buf))
    decreases calls, 0, Weight(lists) + Size(e), e, 0, 0
  {
    BoundReady(cx, calls, actuals, e, all, env, lists, params, buf);
    var o := Reference(cx, calls, actuals, e.value, all);
    if o.Ok? {
      WrittenExists(cx, calls, actuals, e.body, all[e.name := o.value], env[e.name := o.value], lists, params, buf);
    }
  }

  /** An ordinary value is bound by builder code as by the reference. */
  lemma BoundReady(cx: Context, calls: nat, actuals: seq<Value>, e: Expr, all: Env, env: Env,
                   lists: seq<Entry>, params: set<string>, buf: seq<Value>)
    requires e.Let? && Ready(cx, calls, actuals, e, all, env, lists, params, false)
    requires !Inlined(e.value) && !ListValued(cx, e.value, lists, params)
    requires !(TailCalls.Discardable(e.value) && V(e.name) !in Free(e.body))
    ensures var o := Reference(cx, calls, actuals, e.value, all);
      if o.Ok? then
        var all', env' := all[e.name := o.value], env[e.name := o.value];
        && Ready(cx, calls, actuals, e.body, all', env', lists, params, false)
        && Reference(cx, calls, actuals, e, all) == Reference(cx, calls, actuals, e.body, all')
        && Build(cx, calls, actuals, e, env, lists, params, buf)
           == Build(cx, calls, actuals, e.body, env', lists, params, buf)
      else Build(cx, calls, actuals, e, env, lists, params, buf) == Failed(o, buf)
  {
    var Let(x, v, b) := e;
    assert JoinFree(v) && !v.Jp?;
    ValueEval(cx, calls, actuals, v, all, env, lists, false);
    var o := Reference(cx, calls, actuals, v, all);
    if o.Ok? {
      GrowEntries(cx, calls, actuals, all, env, all[x := o.value], env[x := o.value], {V(x)}, lists, false);
    }
  }

  /** A recorded list has a value here. */
  lemma {:induction false} WrittenDeferred(cx: Context, calls: nat, actuals: seq<Value>, e: Expr, all: Env, env: Env,
                                           lists: seq<Entry>, params: set<string>, buf: seq<Value>)
    requires e.Let? && Strict(cx, calls, actuals, e, all, env, lists, params)
    requires !Inlined(e.value) && ListValued(cx, e.value, lists, params)
    requires !(TailCalls.Discardable(e.value) && V(e.name) !in Free(e.body))
    ensures Sound(Reference(cx, calls, actuals, e, all), Build(cx, calls, actuals, e, env, lists, params, buf))
    decreases calls, 0, Weight(lists) + Size(e), e, 0, 0
  {
    DeferredBuild(cx, calls, actuals, e, all, env, lists, params, buf);
    var o := Reference(cx, calls, actuals, e.value, all);
    DeferredEntries(cx, calls, actuals, e, all, env, lists, params);
    WrittenExists(cx, calls, actuals, e.body, all[e.name := o.value], env, lists + [Entry(e.name, e.value)], params,
                  buf);
  }

  /** Deferral records the list where the reference binds it. */
  lemma DeferredBuild(cx: Context, calls: nat, actuals: seq<Value>, e: Expr, all: Env, env: Env,
                      lists: seq<Entry>, params: set<string>, buf: seq<Value>)
    requires e.Let? && JoinFree(e.value) && !Inlined(e.value) && ListValued(cx, e.value, lists, params)
    requires !(TailCalls.Discardable(e.value) && V(e.name) !in Free(e.body))
    ensures Weight(lists + [Entry(e.name, e.value)]) + Size(e.body) < Weight(lists) + Size(e)
    ensures Build(cx, calls, actuals, e, env, lists, params, buf)
         == Build(cx, calls, actuals, e.body, env, lists + [Entry(e.name, e.value)], params, buf)
    ensures var o := Reference(cx, calls, actuals, e.value, all);
      Reference(cx, calls, actuals, e, all)
        == if o.Ok? then Reference(cx, calls, actuals, e.body, all[e.name := o.value]) else o
  {
    WeightPush(lists, Entry(e.name, e.value));
  }

  lemma {:induction false} WrittenRuns(cx: Context, calls: nat, f: string, vs: seq<Value>, buf: seq<Value>)
    requires BuilderModule(cx, false) && f in cx.buffers
    requires RunSpills(cx, calls, f, vs).None? || Run(cx.m, calls, f, vs).Ok?
    ensures Sound(Run(cx.m, calls, f, vs), BuildRun(cx, calls, f, vs, buf))
    decreases calls, 1
  {
    if f in cx.m.defs && |cx.m.defs[f].params| == |vs| {
      var d := cx.m.defs[f];
      var env := Bind(d.params, vs, map[]);
      BindKeys(d.params, vs, map[]);
      assert BuilderDefinition(cx, d, false);
      WrittenExists(cx, calls, vs, d.body, env, env, [], ListParams(d), buf);
    }
  }

  // ---- when a failure is lost ----

  predicate IsList(o: Outcome) {
    o.Ok? && o.value.Seq?
  }

  /** Unless it stops in a recorded list, the strict program denotes a list exactly when
      evaluation on demand does, and then the same one. */
  lemma StrictAgrees(cx: Context, calls: nat, f: string, vs: seq<Value>)
    requires BuilderModule(cx, false) && f in cx.buffers
    ensures var r, z := Run(cx.m, calls, f, vs), RunOnDemand(cx, calls, f, vs);
      && (IsList(r) ==> r == z)
      && (RunSpills(cx, calls, f, vs).None? && IsList(z) ==> r == z)
  {
    var r, z := Run(cx.m, calls, f, vs), RunOnDemand(cx, calls, f, vs);
    if IsList(r) || (RunSpills(cx, calls, f, vs).None? && IsList(z)) {
      var n := if IsList(r) then |r.value.items| else |z.value.items|;
      var buf := seq(n, _ => UnitValue);
      BuilderRuns(cx, calls, f, vs, buf, false);
      RunBuilds(cx, calls, f, vs, buf);
      WrittenRuns(cx, calls, f, vs, buf);
      assert z.value.items + buf[|z.value.items|..] == r.value.items + buf[|r.value.items|..];
    }
  }

  /** Builder code delivers the list that evaluation on demand denotes, and nothing else.  It
      delivers one where the strict program has none if and only if the strict program stops
      in a recorded list, with its failure, and the list on demand exists and fits. */
  lemma OnDemandExact(cx: Context, calls: nat, f: string, vs: seq<Value>, buf: seq<Value>)
    requires BuilderModule(cx, false) && f in cx.buffers
    ensures var r, z := Run(cx.m, calls, f, vs), RunOnDemand(cx, calls, f, vs);
      var s, w := RunSpills(cx, calls, f, vs), BuildRun(cx, calls, f, vs, buf);
      && Fills(z, w, buf)
      && (if s.Some? then r == s.value && !r.Ok? else (IsList(r) <==> IsList(z)) && (IsList(r) ==> r == z))
      && (w.Wrote? && !IsList(r) <==> s.Some? && IsList(z) && |z.value.items| <= |buf|)
  {
    RunBuilds(cx, calls, f, vs, buf);
    RunStops(cx, calls, f, vs);
    StrictAgrees(cx, calls, f, vs);
  }

  /** A definition whose failure is lost: its list of one overflowing sum is never used. */
  lemma LostInRun(cx: Context, calls: nat, f: string, n: nat, buf: seq<Value>)
    requires cx.m.bounded && n + n >= U64 && f in cx.m.defs && cx.m.defs[f].params == []
    requires cx.m.defs[f].body
      == Let("x", Single(Prim(Add, Cons(Lit(NatLit(n)), Cons(Lit(NatLit(n)), Nil)))), Prim(Ctor("List.nil"), Nil))
    ensures Run(cx.m, calls, f, []) == Err(AddOverflow) && RunSpills(cx, calls, f, []) == Some(Err(AddOverflow))
    ensures BuildRun(cx, calls, f, [], buf) == Wrote(0, buf)
  {
    var d := cx.m.defs[f];
    DeferredErrorLost(cx, calls, [], n, buf);
    assert ListParams(d) == {} && Bind<Value>(d.params, [], map[]) == map[];
    var o := Reference(cx, calls, [], d.body.value, map[]);
    if o.Ok? {
      InlinedValue(cx, calls, [], d.body.body, map["x" := o.value]);
    }
    assert Spill(cx, calls, [], d.body, map[], [], {}) == Some(o);
  }
}
