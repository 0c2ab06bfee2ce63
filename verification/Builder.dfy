/** Lists built into a caller-owned buffer (builder mode of `render`).

    A list-returning body becomes code that writes elements from the front of a buffer.
    Let-bound lists have no storage: they are recorded while generating code and resolved
    where the variable is used.  `BuilderRefines` compares the filled buffer with the list
    the body denotes; `Fill` is the same code over an array.
 */
module Builder {
  import opened Ir
  import opened Semantics
  import TailCalls

  /** The module seen from builder mode: definitions that fill buffers, constant lists, and
      the record fields of list type. */
  datatype Context = Context(m: Machine, buffers: set<string>, statics: set<string>, fields: set<nat>)

  /** A list binding resolved by name, as recorded in the builder environment. */
  datatype Entry = Entry(name: string, value: Expr)

  datatype Written =
    | Wrote(n: nat, buffer: seq<Value>)
    | Failed(outcome: Outcome, buffer: seq<Value>)

  function Weight(lists: seq<Entry>): nat {
    if lists == [] then 0 else Weight(lists[..|lists| - 1]) + Size(lists[|lists| - 1].value)
  }

  lemma WeightPush(lists: seq<Entry>, entry: Entry)
    ensures Weight(lists + [entry]) == Weight(lists) + Size(entry.value)
  {
    assert (lists + [entry])[..|lists|] == lists;
  }

  lemma {:induction false} WeightResolve(lists: seq<Entry>, k: nat)
    requires k < |lists|
    ensures Weight(lists[..k]) + Size(lists[k].value) <= Weight(lists)
    decreases |lists|
  {
    var n := |lists| - 1;
    if k < n {
      WeightResolve(lists[..n], k);
      assert lists[..n][..k] == lists[..k];
    }
  }

  /** The innermost entry of a name, or -1. */
  function Lookup(lists: seq<Entry>, x: string): (k: int)
    ensures -1 <= k < |lists|
    ensures k >= 0 ==> lists[k].name == x
    ensures k < 0 ==> forall i :: 0 <= i < |lists| ==> lists[i].name != x
  {
    if lists == [] then -1
    else if lists[|lists| - 1].name == x then |lists| - 1
    else Lookup(lists[..|lists| - 1], x)
  }

  /** Closed polymorphic values are repeated at each use instead of being bound. */
  predicate Inlined(v: Expr) {
    v == Prim(Ctor("List.nil"), Nil) || v == Prim(Ctor("Option.none"), Nil)
  }

  function InlineValue(v: Expr): Value {
    if v == Prim(Ctor("List.nil"), Nil) then Seq([]) else Con("Option.none", [])
  }

  predicate IsNil(e: Expr) {
    e == Prim(Ctor("List.nil"), Nil)
  }

  predicate IsCons(e: Expr) {
    e.Prim? && e.op == Ctor("List.cons") && e.args.Cons? && e.args.tail.Cons? && e.args.tail.tail.Nil?
  }

  lemma ConsSize(e: Expr)
    requires IsCons(e)
    ensures Size(e) == 1 + Size(e.args.head) + Size(e.args.tail.head)
  {
    var rest := e.args.tail;
    assert SizeAll(rest) == Size(rest.head) + SizeAll(Nil);
  }

  predicate ListField(cx: Context, e: Expr) {
    e.Prim? && e.op.Proj? && e.op.index in cx.fields
  }

  /** Renderable only in builder position or as a recorded binding. */
  predicate ListValued(cx: Context, e: Expr, lists: seq<Entry>, params: set<string>) {
    match e
    case Prim(op, _) => op == Ctor("List.nil") || op == Ctor("List.cons") || ListField(cx, e)
    case Call(f, _) => f in cx.buffers || f in cx.statics
    case Var(x) => (Lookup(lists, x) >= 0 && !Inlined(lists[Lookup(lists, x)].value)) || x in params
    case _ => false
  }

  // ---- the emitted code ----

  /** Elements past the count reported are as they were. */
  ghost predicate Tail(w: Written, buf: seq<Value>) {
    |w.buffer| == |buf| && (w.Wrote? ==> w.n <= |buf| && w.buffer[w.n..] == buf[w.n..])
  }

  /** Copy a borrowed list: length check first, then the prefix. */
  function Copy(v: Value, buf: seq<Value>): (w: Written)
    ensures Tail(w, buf)
    ensures w.Wrote? <==> v.Seq? && |v.items| <= |buf|
    ensures w.Wrote? ==> w.buffer[..w.n] == v.items
    ensures w.Failed? ==> w.buffer == buf && (w.outcome == Err(OutputTooSmall) <==> v.Seq?)
  {
    if !v.Seq? then Failed(Stuck, buf)
    else if |v.items| > |buf| then Failed(Err(OutputTooSmall), buf)
    else Wrote(|v.items|, v.items + buf[|v.items|..])
  }

  /** Put the element taken from the front back before what the rest became. */
  function Behind(head: Value, w: Written, buf: seq<Value>): (r: Written)
    requires buf != [] && Tail(w, buf[1..])
    ensures Tail(r, buf)
  {
    match w
    case Wrote(n, rest) =>
      assert ([head] + rest)[n + 1..] == rest[n..] == buf[1..][n..] == buf[n + 1..];
      Wrote(n + 1, [head] + rest)
    case Failed(o, rest) => Failed(o, [head] + rest)
  }

  function Build(cx: Context, calls: nat, actuals: seq<Value>, e: Expr, env: Env,
                 lists: seq<Entry>, params: set<string>, buf: seq<Value>): (w: Written)
    ensures Tail(w, buf)
    decreases calls, 0, Weight(lists) + Size(e), e
  {
    match e
    case If(c, t, f) =>
      var o := Eval(cx.m, calls, cx.m.jumps, actuals, c, env, NoJoin);
      if !o.Ok? then Failed(o, buf)
      else if !o.value.Bool? then Failed(Stuck, buf)
      else Build(cx, calls, actuals, if o.value.b then t else f, env, lists, params, buf)
    case Let(x, v, b) =>
      WeightPush(lists, Entry(x, v));
      if Inlined(v) then Build(cx, calls, actuals, b, env[x := InlineValue(v)], lists + [Entry(x, v)], params, buf)
      else if TailCalls.Discardable(v) && V(x) !in Free(b) then Build(cx, calls, actuals, b, env, lists, params, buf)
      else if ListValued(cx, v, lists, params) then
        Build(cx, calls, actuals, b, env, lists + [Entry(x, v)], params, buf)
      else
        var o := Eval(cx.m, calls, cx.m.jumps, actuals, v, env, NoJoin);
        if !o.Ok? then Failed(o, buf)
        else Build(cx, calls, actuals, b, env[x := o.value], lists, params, buf)
    case Match(s, alts) =>
      var o := Eval(cx.m, calls, cx.m.jumps, actuals, s, env, NoJoin);
      if !o.Ok? then Failed(o, buf) else BuildAlts(cx, calls, actuals, alts, o.value, env, lists, params, buf)
    case Var(x) =>
      var k := Lookup(lists, x);
      if k >= 0 then
        WeightResolve(lists, k);
        Build(cx, calls, actuals, lists[k].value, env, lists[..k], params, buf)
      else if x in params && x in env then Copy(env[x], buf)
      else Failed(Stuck, buf)
    case Prim(_, es) =>
      if IsNil(e) then Wrote(0, buf)
      else if IsCons(e) then
        ConsSize(e);
        if buf == [] then Failed(Err(OutputTooSmall), buf) else
        var o := Eval(cx.m, calls, cx.m.jumps, actuals, es.head, env, NoJoin);
        if !o.Ok? then Failed(o, buf)
        else Behind(o.value, Build(cx, calls, actuals, es.tail.head, env, lists, params, buf[1..]), buf)
      else if ListField(cx, e) then
        var o := Eval(cx.m, calls, cx.m.jumps, actuals, e, env, NoJoin);
        if !o.Ok? then Failed(o, buf) else Copy(o.value, buf)
      else Failed(Stuck, buf)
    case Call(f, es) =>
      if f !in cx.buffers then Failed(Stuck, buf) else
      (match EvalAll(cx.m, calls, cx.m.jumps, actuals, es, env, NoJoin)
       case Fails(o) => Failed(o, buf)
       case Oks(vs) => if calls == 0 then Failed(OutOfFuel, buf) else BuildRun(cx, calls - 1, f, vs, buf))
    case _ => Failed(Stuck, buf)
  }

  function BuildAlts(cx: Context, calls: nat, actuals: seq<Value>, alts: Alts, v: Value, env: Env,
                     lists: seq<Entry>, params: set<string>, buf: seq<Value>): (w: Written)
    ensures Tail(w, buf)
    decreases calls, 0, Weight(lists) + SizeAlts(alts), alts
  {
    match alts
    case NoMore => Failed(Stuck, buf)
    case Default(b) => Build(cx, calls, actuals, b, env, lists, params, buf)
    case Alt(c, bs, b, rest) =>
      var fs := Fields(c, |bs|, v);
      if fs != [] then Build(cx, calls, actuals, b, Bind(bs, fs[0], env), lists, params, buf)
      else BuildAlts(cx, calls, actuals, rest, v, env, lists, params, buf)
  }

  /** A buffer callee writes straight into the buffer it is given. */
  function BuildRun(cx: Context, calls: nat, f: string, vs: seq<Value>, buf: seq<Value>): (w: Written)
    ensures Tail(w, buf)
    decreases calls, 1
  {
    if f !in cx.m.defs || |cx.m.defs[f].params| != |vs| then Failed(Stuck, buf) else
    var d := cx.m.defs[f];
    Build(cx, calls, vs, d.body, Bind(d.params, vs, map[]), [], ListParams(d), buf)
  }

  function ListParams(d: Definition): set<string> {
    set i | 0 <= i < |d.params| && i < |d.types| && d.types[i].List? :: d.params[i]
  }

  // ---- which bodies are accepted ----

  /** Bindings without a runtime variable. */
  function Hidden(lists: seq<Entry>): set<string> {
    set k | 0 <= k < |lists| && !Inlined(lists[k].value) :: lists[k].name
  }

  predicate NoBufferCall(cx: Context, e: Expr) {
    (e.Call? ==> e.callee !in cx.buffers) && forall c :: c in Children(e) ==> NoBufferCall(cx, c)
  }

  /** An ordinary value: nothing in it builds a list into a buffer or names a recorded one. */
  ghost predicate ValuePosition(cx: Context, e: Expr, lists: seq<Entry>) {
    NoBufferCall(cx, e) && forall x :: x in Hidden(lists) ==> V(x) !in Free(e)
  }

  ghost predicate ValuePositions(cx: Context, es: Exprs, lists: seq<Entry>) {
    && (forall c :: c in Listed(es) ==> NoBufferCall(cx, c))
    && (forall x :: x in Hidden(lists) ==> V(x) !in FreeAll(es))
  }

  /** Code generation succeeds in builder mode. */
  ghost predicate Accepted(cx: Context, e: Expr, lists: seq<Entry>, params: set<string>)
    decreases Weight(lists) + Size(e), e
  {
    match e
    case If(c, t, f) =>
      ValuePosition(cx, c, lists) && Accepted(cx, t, lists, params) && Accepted(cx, f, lists, params)
    case Let(x, v, b) =>
      WeightPush(lists, Entry(x, v));
      if Inlined(v) then Accepted(cx, b, lists + [Entry(x, v)], params)
      else if TailCalls.Discardable(v) && V(x) !in Free(b) then Accepted(cx, b, lists, params)
      else if ListValued(cx, v, lists, params) then Accepted(cx, b, lists + [Entry(x, v)], params)
      else ValuePosition(cx, v, lists) && Accepted(cx, b, lists, params)
    case Match(s, alts) => ValuePosition(cx, s, lists) && AcceptedAlts(cx, alts, lists, params)
    case Var(x) =>
      var k := Lookup(lists, x);
      if k >= 0 then
        WeightResolve(lists, k);
        Accepted(cx, lists[k].value, lists[..k], params)
      else x in params
    case Prim(_, es) =>
      if IsNil(e) then true
      else if IsCons(e) then
        ConsSize(e);
        ValuePosition(cx, es.head, lists) && Accepted(cx, es.tail.head, lists, params)
      else ListField(cx, e) && ValuePosition(cx, e, lists)
    case Call(f, es) => f in cx.buffers && ValuePositions(cx, es, lists)
    case _ => false
  }

  ghost predicate AcceptedAlts(cx: Context, alts: Alts, lists: seq<Entry>, params: set<string>)
    decreases Weight(lists) + SizeAlts(alts), alts
  {
    match alts
    case NoMore => true
    case Default(b) => Accepted(cx, b, lists, params)
    case Alt(_, _, b, rest) => Accepted(cx, b, lists, params) && AcceptedAlts(cx, rest, lists, params)
  }

  /** No list binding is deferred. */
  predicate Prompt(cx: Context, e: Expr, params: set<string>) {
    match e
    case If(_, t, f) => Prompt(cx, t, params) && Prompt(cx, f, params)
    case Let(_, v, b) => (Inlined(v) || !ListValued(cx, v, [], params)) && Prompt(cx, b, params)
    case Match(_, alts) => PromptAlts(cx, alts, params)
    case Prim(_, es) => IsCons(e) ==> Prompt(cx, es.tail.head, params)
    case _ => true
  }

  predicate PromptAlts(cx: Context, alts: Alts, params: set<string>) {
    match alts
    case NoMore => true
    case Default(b) => Prompt(cx, b, params)
    case Alt(_, _, b, rest) => Prompt(cx, b, params) && PromptAlts(cx, rest, params)
  }

  /** Normalised, closed, accepted. */
  ghost predicate BuilderDefinition(cx: Context, d: Definition, prompt: bool) {
    && JoinFree(d.body) && Unique(d.body)
    && Bound(d.body) !! Vars(d.params) && Free(d.body) <= Vars(d.params)
    && Accepted(cx, d.body, [], ListParams(d))
    && (prompt ==> Prompt(cx, d.body, ListParams(d)))
  }

  ghost predicate BuilderModule(cx: Context, prompt: bool) {
    forall f :: f in cx.buffers && f in cx.m.defs ==> BuilderDefinition(cx, cx.m.defs[f], prompt)
  }

  // ---- recorded bindings against the reference environment ----

  function Names(lists: seq<Entry>): set<string> {
    set k | 0 <= k < |lists| :: lists[k].name
  }

  ghost predicate Scoped(free: set<Name>, bound: set<Name>, all: Env, env: Env, lists: seq<Entry>) {
    && (forall n :: n in free ==> n.V? && (n.name in env || n.name in Names(lists)))
    && (forall x :: x in all ==> V(x) !in bound)
    && (forall k :: 0 <= k < |lists| ==> Bound(lists[k].value) !! bound)
  }

  ghost predicate Shadows(all: Env, env: Env, lists: seq<Entry>) {
    && (forall x :: x in env ==> x in all && all[x] == env[x])
    && (forall x :: x in Names(lists) ==> x in all)
  }

  /** Resolving an entry later gives the value the reference bound. */
  ghost predicate Deferred(cx: Context, calls: nat, actuals: seq<Value>, all: Env, env: Env, lists: seq<Entry>, k: nat)
    requires k < |lists|
  {
    var Entry(x, v) := lists[k];
    && JoinFree(v) && Unique(v) && Scoped(Free(v), Bound(v), all, env, lists[..k])
    && x in all && Eval(cx.m, calls, cx.m.jumps, actuals, v, all, NoJoin) == Ok(all[x])
    && (Inlined(v) ==> x in env)
  }

  ghost predicate Entries(cx: Context, calls: nat, actuals: seq<Value>, all: Env, env: Env, lists: seq<Entry>,
                          prompt: bool)
  {
    && Shadows(all, env, lists)
    && (forall k :: 0 <= k < |lists| ==> Deferred(cx, calls, actuals, all, env, lists, k))
    && (prompt ==> forall k :: 0 <= k < |lists| ==> Inlined(lists[k].value))
  }

  /** More variables come into scope, all of them new. */
  ghost predicate Grown(all: Env, env: Env, all': Env, env': Env, added: set<Name>) {
    && (forall x :: x in all ==> x in all' && all'[x] == all[x])
    && (forall x :: x in env ==> x in env')
    && (forall x :: x in env' ==> x in all' && all'[x] == env'[x])
    && (forall x :: x in all' && x !in all ==> V(x) in added)
    && (forall x :: x in all ==> V(x) !in added)
  }

  lemma GrowOne(cx: Context, calls: nat, actuals: seq<Value>, all: Env, env: Env, all': Env, env': Env,
                added: set<Name>, lists: seq<Entry>, k: nat)
    requires Shadows(all, env, lists) && Grown(all, env, all', env', added) && k < |lists|
    requires Deferred(cx, calls, actuals, all, env, lists, k) && Bound(lists[k].value) !! added
    ensures Deferred(cx, calls, actuals, all', env', lists, k)
  {
    var Entry(x, v) := lists[k];
    assert forall y :: y in Names(lists[..k]) ==> y in Names(lists);
    assert AgreeOn(Free(v), all, all');
    Coincidence(cx.m, calls, cx.m.jumps, actuals, v, all, all');
  }

  lemma GrowEntries(cx: Context, calls: nat, actuals: seq<Value>, all: Env, env: Env, all': Env, env': Env,
                    added: set<Name>, lists: seq<Entry>, prompt: bool)
    requires Entries(cx, calls, actuals, all, env, lists, prompt) && Grown(all, env, all', env', added)
    requires forall k :: 0 <= k < |lists| ==> Bound(lists[k].value) !! added
    ensures Entries(cx, calls, actuals, all', env', lists, prompt)
  {
    forall k | 0 <= k < |lists|
      ensures Deferred(cx, calls, actuals, all', env', lists, k)
    {
      GrowOne(cx, calls, actuals, all, env, all', env', added, lists, k);
    }
  }

  /** Recording one more list. */
  lemma PushEntry(cx: Context, calls: nat, actuals: seq<Value>, all: Env, env: Env, lists: seq<Entry>,
                  entry: Entry, prompt: bool)
    requires Entries(cx, calls, actuals, all, env, lists, prompt)
    requires Deferred(cx, calls, actuals, all, env, lists + [entry], |lists|)
    requires prompt ==> Inlined(entry.value)
    ensures Entries(cx, calls, actuals, all, env, lists + [entry], prompt)
  {
    var longer := lists + [entry];
    forall k | 0 <= k < |longer|
      ensures Deferred(cx, calls, actuals, all, env, longer, k)
    {
      if k < |lists| {
        assert longer[..k] == lists[..k] && longer[k] == lists[k];
        assert Deferred(cx, calls, actuals, all, env, lists, k);
      }
    }
    forall x | x in Names(longer)
      ensures x in all
    {
      var k :| 0 <= k < |longer| && longer[k].name == x;
      assert Deferred(cx, calls, actuals, all, env, longer, k);
    }
  }

  lemma PrefixEntries(cx: Context, calls: nat, actuals: seq<Value>, all: Env, env: Env, lists: seq<Entry>,
                      k: nat, prompt: bool)
    requires Entries(cx, calls, actuals, all, env, lists, prompt) && k <= |lists|
    ensures Entries(cx, calls, actuals, all, env, lists[..k], prompt)
  {
    var shorter := lists[..k];
    assert forall x :: x in Names(shorter) ==> x in Names(lists);
    forall i | 0 <= i < |shorter|
      ensures Deferred(cx, calls, actuals, all, env, shorter, i)
    {
      assert Deferred(cx, calls, actuals, all, env, lists, i);
      assert shorter[..i] == lists[..i];
    }
  }

  /** In value position the generated variables mean what the reference binds. */
  lemma ValueAgrees(cx: Context, calls: nat, actuals: seq<Value>, free: set<Name>, all: Env, env: Env,
                    lists: seq<Entry>, prompt: bool)
    requires Entries(cx, calls, actuals, all, env, lists, prompt)
    requires forall n :: n in free ==> n.V? && (n.name in env || n.name in Names(lists))
    requires forall x :: x in Hidden(lists) ==> V(x) !in free
    ensures AgreeOn(free, env, all)
  {
    forall k | 0 <= k < |lists| && Inlined(lists[k].value)
      ensures lists[k].name in env
    {
      assert Deferred(cx, calls, actuals, all, env, lists, k);
    }
    assert forall k :: 0 <= k < |lists| && !Inlined(lists[k].value) ==> lists[k].name in Hidden(lists);
  }

  // ---- the buffer holds the list ----

  /** What the filled buffer owes the reference outcome.  Without deferred lists this also
      covers failures, except that a full buffer may be noticed first. */
  ghost predicate Refined(prompt: bool, reference: Outcome, w: Written, buf: seq<Value>) {
    if reference.Ok? && reference.value.Seq? then
      var xs := reference.value.items;
      if |xs| <= |buf| then w == Wrote(|xs|, xs + buf[|xs|..])
      else w.Failed? && w.outcome == Err(OutputTooSmall)
    else
      prompt ==> w.Failed? && (w.outcome == Err(OutputTooSmall)
                               || w.outcome == if reference.Ok? then Stuck else reference)
  }

  function Reference(cx: Context, calls: nat, actuals: seq<Value>, e: Expr, all: Env): Outcome {
    Eval(cx.m, calls, cx.m.jumps, actuals, e, all, NoJoin)
  }

  ghost predicate Ready(cx: Context, calls: nat, actuals: seq<Value>, e: Expr, all: Env, env: Env,
                        lists: seq<Entry>, params: set<string>, prompt: bool)
  {
    && BuilderModule(cx, prompt) && JoinFree(e) && Unique(e)
    && Entries(cx, calls, actuals, all, env, lists, prompt)
    && Scoped(Free(e), Bound(e), all, env, lists)
    && Accepted(cx, e, lists, params) && (prompt ==> Prompt(cx, e, params))
  }

  ghost predicate ReadyAlts(cx: Context, calls: nat, actuals: seq<Value>, alts: Alts, all: Env, env: Env,
                            lists: seq<Entry>, params: set<string>, prompt: bool)
  {
    && BuilderModule(cx, prompt) && JoinFreeAlts(alts) && UniqueAlts(alts)
    && Entries(cx, calls, actuals, all, env, lists, prompt)
    && Scoped(FreeAlts(alts), BoundAlts(alts), all, env, lists)
    && AcceptedAlts(cx, alts, lists, params) && (prompt ==> PromptAlts(cx, alts, params))
  }

  lemma ValueEval(cx: Context, calls: nat, actuals: seq<Value>, e: Expr, all: Env, env: Env,
                  lists: seq<Entry>, prompt: bool)
    requires Entries(cx, calls, actuals, all, env, lists, prompt) && JoinFree(e) && ValuePosition(cx, e, lists)
    requires forall n :: n in Free(e) ==> n.V? && (n.name in env || n.name in Names(lists))
    ensures Eval(cx.m, calls, cx.m.jumps, actuals, e, env, NoJoin) == Reference(cx, calls, actuals, e, all)
  {
    ValueAgrees(cx, calls, actuals, Free(e), all, env, lists, prompt);
    Coincidence(cx.m, calls, cx.m.jumps, actuals, e, env, all);
  }

  lemma {:induction false} BuilderRefines(cx: Context, calls: nat, actuals: seq<Value>, e: Expr, all: Env, env: Env,
                                          lists: seq<Entry>, params: set<string>, buf: seq<Value>, prompt: bool)
    requires Ready(cx, calls, actuals, e, all, env, lists, params, prompt)
    ensures Refined(prompt, Reference(cx, calls, actuals, e, all),
                    Build(cx, calls, actuals, e, env, lists, params, buf), buf)
    decreases calls, 0, Weight(lists) + Size(e), e, 1
  {
    match e
    case If(_, _, _) => RefinesIf(cx, calls, actuals, e, all, env, lists, params, buf, prompt);
    case Let(_, _, _) => RefinesLet(cx, calls, actuals, e, all, env, lists, params, buf, prompt);
    case Match(_, _) => RefinesMatch(cx, calls, actuals, e, all, env, lists, params, buf, prompt);
    case Var(_) => RefinesVar(cx, calls, actuals, e, all, env, lists, params, buf, prompt);
    case Prim(_, _) => RefinesPrim(cx, calls, actuals, e, all, env, lists, params, buf, prompt);
    case Call(_, _) => RefinesCall(cx, calls, actuals, e, all, env, lists, params, buf, prompt);
    case _ =>
  }

  lemma {:induction false} RefinesIf(cx: Context, calls: nat, actuals: seq<Value>, e: Expr, all: Env, env: Env,
                                     lists: seq<Entry>, params: set<string>, buf: seq<Value>, prompt: bool)
    requires e.If? && Ready(cx, calls, actuals, e, all, env, lists, params, prompt)
    ensures Refined(prompt, Reference(cx, calls, actuals, e, all),
                    Build(cx, calls, actuals, e, env, lists, params, buf), buf)
    decreases calls, 0, Weight(lists) + Size(e), e, 0
  {
    ValueEval(cx, calls, actuals, e.cond, all, env, lists, prompt);
    var o := Reference(cx, calls, actuals, e.cond, all);
    if o.Ok? && o.value.Bool? {
      BuilderRefines(cx, calls, actuals, if o.value.b then e.yes else e.no, all, env, lists, params, buf, prompt);
    }
  }

  lemma {:induction false} RefinesMatch(cx: Context, calls: nat, actuals: seq<Value>, e: Expr, all: Env, env: Env,
                                        lists: seq<Entry>, params: set<string>, buf: seq<Value>, prompt: bool)
    requires e.Match? && Ready(cx, calls, actuals, e, all, env, lists, params, prompt)
    ensures Refined(prompt, Reference(cx, calls, actuals, e, all),
                    Build(cx, calls, actuals, e, env, lists, params, buf), buf)
    decreases calls, 0, Weight(lists) + Size(e), e, 0
  {
    ValueEval(cx, calls, actuals, e.scrut, all, env, lists, prompt);
    var o := Reference(cx, calls, actuals, e.scrut, all);
    if o.Ok? {
      RefinesAlts(cx, calls, actuals, e.alts, o.value, all, env, lists, params, buf, prompt);
    }
  }

  lemma {:induction false} RefinesLet(cx: Context, calls: nat, actuals: seq<Value>, e: Expr, all: Env, env: Env,
                                      lists: seq<Entry>, params: set<string>, buf: seq<Value>, prompt: bool)
    requires e.Let? && Ready(cx, calls, actuals, e, all, env, lists, params, prompt)
    ensures Refined(prompt, Reference(cx, calls, actuals, e, all),
                    Build(cx, calls, actuals, e, env, lists, params, buf), buf)
    decreases calls, 0, Weight(lists) + Size(e), e, 0
  {
    var Let(x, v, b) := e;
    WeightPush(lists, Entry(x, v));
    if Inlined(v) {
      RefinesInlined(cx, calls, actuals, e, all, env, lists, params, buf, prompt);
    } else if TailCalls.Discardable(v) && V(x) !in Free(b) {
      TailCalls.DiscardableOk(cx.m, calls, cx.m.jumps, actuals, v, all);
      var o := Reference(cx, calls, actuals, v, all);
      Coincidence(cx.m, calls, cx.m.jumps, actuals, b, all, all[x := o.value]);
      BuilderRefines(cx, calls, actuals, b, all, env, lists, params, buf, prompt);
    } else if ListValued(cx, v, lists, params) {
      RefinesDeferred(cx, calls, actuals, e, all, env, lists, params, buf, prompt);
    } else {
      RefinesBound(cx, calls, actuals, e, all, env, lists, params, buf, prompt);
    }
  }

  lemma {:induction false} RefinesBound(cx: Context, calls: nat, actuals: seq<Value>, e: Expr, all: Env, env: Env,
                                        lists: seq<Entry>, params: set<string>, buf: seq<Value>, prompt: bool)
    requires e.Let? && Ready(cx, calls, actuals, e, all, env, lists, params, prompt)
    requires !Inlined(e.value) && !ListValued(cx, e.value, lists, params)
    requires !(TailCalls.Discardable(e.value) && V(e.name) !in Free(e.body))
    ensures Refined(prompt, Reference(cx, calls, actuals, e, all),
                    Build(cx, calls, actuals, e, env, lists, params, buf), buf)
    decreases calls, 0, Weight(lists) + Size(e), e, 0, 0
  {
    var Let(x, v, b) := e;
    ValueEval(cx, calls, actuals, v, all, env, lists, prompt);
    var o := Reference(cx, calls, actuals, v, all);
    if o.Ok? {
      var all', env' := all[x := o.value], env[x := o.value];
      GrowEntries(cx, calls, actuals, all, env, all', env', {V(x)}, lists, prompt);
      BuilderRefines(cx, calls, actuals, b, all', env', lists, params, buf, prompt);
    }
  }

  lemma {:induction false} RefinesInlined(cx: Context, calls: nat, actuals: seq<Value>, e: Expr, all: Env, env: Env,
                                          lists: seq<Entry>, params: set<string>, buf: seq<Value>, prompt: bool)
    requires e.Let? && Ready(cx, calls, actuals, e, all, env, lists, params, prompt)
    requires Inlined(e.value)
    ensures Refined(prompt, Reference(cx, calls, actuals, e, all),
                    Build(cx, calls, actuals, e, env, lists, params, buf), buf)
    decreases calls, 0, Weight(lists) + Size(e), e, 0, 0
  {
    var Let(x, v, b) := e;
    WeightPush(lists, Entry(x, v));
    InlinedValue(cx, calls, actuals, v, all);
    var all', env' := all[x := InlineValue(v)], env[x := InlineValue(v)];
    InlinedEntries(cx, calls, actuals, x, v, all, env, lists, prompt);
    BuilderRefines(cx, calls, actuals, b, all', env', lists + [Entry(x, v)], params, buf, prompt);
  }

  lemma InlinedEntries(cx: Context, calls: nat, actuals: seq<Value>, x: string, v: Expr, all: Env, env: Env,
                       lists: seq<Entry>, prompt: bool)
    requires Inlined(v) && x !in all && Entries(cx, calls, actuals, all, env, lists, prompt)
    requires forall k :: 0 <= k < |lists| ==> V(x) !in Bound(lists[k].value)
    ensures Entries(cx, calls, actuals, all[x := InlineValue(v)], env[x := InlineValue(v)], lists + [Entry(x, v)],
                    prompt)
  {
    var all', env' := all[x := InlineValue(v)], env[x := InlineValue(v)];
    GrowEntries(cx, calls, actuals, all, env, all', env', {V(x)}, lists, prompt);
    InlinedValue(cx, calls, actuals, v, all');
    assert (lists + [Entry(x, v)])[..|lists|] == lists;
    PushEntry(cx, calls, actuals, all', env', lists, Entry(x, v), prompt);
  }

  lemma InlinedValue(cx: Context, calls: nat, actuals: seq<Value>, v: Expr, all: Env)
    requires Inlined(v)
    ensures Reference(cx, calls, actuals, v, all) == Ok(InlineValue(v)) && Free(v) == {} && Bound(v) == {}
  {
    assert EvalAll(cx.m, calls, cx.m.jumps, actuals, Nil, all, NoJoin) == Oks([]);
  }

  lemma {:induction false} RefinesDeferred(cx: Context, calls: nat, actuals: seq<Value>, e: Expr, all: Env, env: Env,
                                           lists: seq<Entry>, params: set<string>, buf: seq<Value>, prompt: bool)
    requires e.Let? && Ready(cx, calls, actuals, e, all, env, lists, params, prompt)
    requires !Inlined(e.value) && ListValued(cx, e.value, lists, params)
    requires !(TailCalls.Discardable(e.value) && V(e.name) !in Free(e.body))
    ensures Refined(prompt, Reference(cx, calls, actuals, e, all),
                    Build(cx, calls, actuals, e, env, lists, params, buf), buf)
    decreases calls, 0, Weight(lists) + Size(e), e, 0, 0
  {
    var Let(x, v, b) := e;
    WeightPush(lists, Entry(x, v));
    var o := Reference(cx, calls, actuals, v, all);
    NotPrompt(cx, calls, actuals, e, all, env, lists, params, prompt);
    if o.Ok? {
      DeferredEntries(cx, calls, actuals, e, all, env, lists, params);
      BuilderRefines(cx, calls, actuals, b, all[x := o.value], env, lists + [Entry(x, v)], params, buf, prompt);
    }
  }

  lemma NotPrompt(cx: Context, calls: nat, actuals: seq<Value>, e: Expr, all: Env, env: Env,
                  lists: seq<Entry>, params: set<string>, prompt: bool)
    requires e.Let? && Ready(cx, calls, actuals, e, all, env, lists, params, prompt)
    requires !Inlined(e.value) && ListValued(cx, e.value, lists, params)
    ensures !prompt
  {}

  /** What a deferred list adds to the entries. */
  lemma DeferredEntries(cx: Context, calls: nat, actuals: seq<Value>, e: Expr, all: Env, env: Env,
                        lists: seq<Entry>, params: set<string>)
    requires e.Let? && Ready(cx, calls, actuals, e, all, env, lists, params, false)
    requires Reference(cx, calls, actuals, e.value, all).Ok? && !Inlined(e.value)
    ensures Entries(cx, calls, actuals, all[e.name := Reference(cx, calls, actuals, e.value, all).value], env,
                    lists + [Entry(e.name, e.value)], false)
  {
    var Let(x, v, b) := e;
    var all' := all[x := Reference(cx, calls, actuals, v, all).value];
    GrowEntries(cx, calls, actuals, all, env, all', env, {V(x)}, lists, false);
    assert AgreeOn(Free(v), all, all');
    Coincidence(cx.m, calls, cx.m.jumps, actuals, v, all, all');
    assert (lists + [Entry(x, v)])[..|lists|] == lists;
    PushEntry(cx, calls, actuals, all', env, lists, Entry(x, v), false);
  }

  lemma {:induction false} RefinesAlts(cx: Context, calls: nat, actuals: seq<Value>, alts: Alts, v: Value, all: Env,
                                       env: Env, lists: seq<Entry>, params: set<string>, buf: seq<Value>, prompt: bool)
    requires ReadyAlts(cx, calls, actuals, alts, all, env, lists, params, prompt)
    ensures Refined(prompt, EvalAlts(cx.m, calls, cx.m.jumps, actuals, alts, v, all, NoJoin),
                    BuildAlts(cx, calls, actuals, alts, v, env, lists, params, buf), buf)
    decreases calls, 0, Weight(lists) + SizeAlts(alts), alts
  {
    match alts
    case NoMore =>
    case Default(b) => BuilderRefines(cx, calls, actuals, b, all, env, lists, params, buf, prompt);
    case Alt(c, bs, b, rest) =>
      var fs := Fields(c, |bs|, v);
      if fs != [] {
        var all', env' := Bind(bs, fs[0], all), Bind(bs, fs[0], env);
        BindGrown(bs, fs[0], all, env);
        GrowEntries(cx, calls, actuals, all, env, all', env', Vars(bs), lists, prompt);
        BuilderRefines(cx, calls, actuals, b, all', env', lists, params, buf, prompt);
      } else {
        RefinesAlts(cx, calls, actuals, rest, v, all, env, lists, params, buf, prompt);
      }
  }

  lemma BindGrown(xs: seq<string>, vs: seq<Value>, all: Env, env: Env)
    requires |xs| == |vs| && Distinct(xs)
    requires forall x :: x in env ==> x in all && all[x] == env[x]
    requires forall x :: x in all ==> V(x) !in Vars(xs)
    ensures Grown(all, env, Bind(xs, vs, all), Bind(xs, vs, env), Vars(xs))
    ensures forall x :: x in Bind(xs, vs, env) <==> x in xs || x in env
  {
    BindKeys(xs, vs, all);
    BindKeys(xs, vs, env);
    forall x | x in xs
      ensures Bind(xs, vs, all)[x] == Bind(xs, vs, env)[x]
    {
      var i :| 0 <= i < |xs| && xs[i] == x;
      BindValue(xs, vs, all, i);
      BindValue(xs, vs, env, i);
    }
  }

  lemma {:induction false} RefinesVar(cx: Context, calls: nat, actuals: seq<Value>, e: Expr, all: Env, env: Env,
                                      lists: seq<Entry>, params: set<string>, buf: seq<Value>, prompt: bool)
    requires e.Var? && Ready(cx, calls, actuals, e, all, env, lists, params, prompt)
    ensures Refined(prompt, Reference(cx, calls, actuals, e, all),
                    Build(cx, calls, actuals, e, env, lists, params, buf), buf)
    decreases calls, 0, Weight(lists) + Size(e), e, 0
  {
    var k := Lookup(lists, e.name);
    if k >= 0 {
      WeightResolve(lists, k);
      assert Deferred(cx, calls, actuals, all, env, lists, k);
      PrefixEntries(cx, calls, actuals, all, env, lists, k, prompt);
      BuilderRefines(cx, calls, actuals, lists[k].value, all, env, lists[..k], params, buf, prompt);
    } else {
      assert e.name !in Names(lists);
      assert V(e.name) in Free(e);
    }
  }

  lemma {:induction false} RefinesCons(cx: Context, calls: nat, actuals: seq<Value>, e: Expr, all: Env, env: Env,
                                       lists: seq<Entry>, params: set<string>, buf: seq<Value>, prompt: bool)
    requires IsCons(e) && Ready(cx, calls, actuals, e, all, env, lists, params, prompt)
    ensures Refined(prompt, Reference(cx, calls, actuals, e, all),
                    Build(cx, calls, actuals, e, env, lists, params, buf), buf)
    decreases calls, 0, Weight(lists) + Size(e), e, 0, 0
  {
    var h, t := e.args.head, e.args.tail.head;
    ConsSize(e);
    ConsParts(e);
    ValueEval(cx, calls, actuals, h, all, env, lists, prompt);
    ConsReference(cx, calls, actuals, e, all);
    if buf != [] {
      BuilderRefines(cx, calls, actuals, t, all, env, lists, params, buf[1..], prompt);
      var o := Reference(cx, calls, actuals, h, all);
      if o.Ok? {
        ConsRefined(prompt, o.value, Reference(cx, calls, actuals, t, all),
                    Build(cx, calls, actuals, t, env, lists, params, buf[1..]), buf);
      }
    }
  }

  lemma ConsRefined(prompt: bool, head: Value, r: Outcome, w: Written, buf: seq<Value>)
    requires buf != [] && Tail(w, buf[1..]) && Refined(prompt, r, w, buf[1..])
    ensures Refined(prompt, ConsOutcome(Ok(head), r), Behind(head, w, buf), buf)
  {
    if r.Ok? && r.value.Seq? && |r.value.items| <= |buf| - 1 {
      var xs := r.value.items;
      assert [head] + (xs + buf[1..][|xs|..]) == ([head] + xs) + buf[|xs| + 1..];
    }
  }

  lemma ConsParts(e: Expr)
    requires IsCons(e)
    ensures Free(e) == Free(e.args.head) + Free(e.args.tail.head)
    ensures Bound(e) == Bound(e.args.head) + Bound(e.args.tail.head)
    ensures JoinFree(e) ==> JoinFree(e.args.head) && JoinFree(e.args.tail.head)
    ensures Unique(e) ==> Unique(e.args.head) && Unique(e.args.tail.head)
  {
    var es, rest := e.args, e.args.tail;
    assert es == Cons(es.head, rest) && rest == Cons(rest.head, Nil);
    assert Free(e) == FreeAll(es) == Free(es.head) + FreeAll(rest);
    assert FreeAll(rest) == Free(rest.head) + FreeAll(Nil);
    assert Bound(e) == BoundAll(es) == Bound(es.head) + BoundAll(rest);
    assert BoundAll(rest) == Bound(rest.head) + BoundAll(Nil);
    assert JoinFree(e) == JoinFreeAll(es) == (JoinFree(es.head) && JoinFreeAll(rest));
    assert JoinFreeAll(rest) == JoinFree(rest.head);
    assert Unique(e) == UniqueAll(es);
    assert UniqueAll(es) ==> Unique(es.head) && UniqueAll(rest);
    assert UniqueAll(rest) ==> Unique(rest.head);
  }

  function ConsOutcome(o: Outcome, r: Outcome): Outcome {
    if !o.Ok? then o
    else if !r.Ok? then r
    else if r.value.Seq? then Ok(Seq([o.value] + r.value.items))
    else Stuck
  }

  /** Head first, then tail, then one more element. */
  lemma ConsReference(cx: Context, calls: nat, actuals: seq<Value>, e: Expr, all: Env)
    requires IsCons(e)
    ensures Reference(cx, calls, actuals, e, all)
         == ConsOutcome(Reference(cx, calls, actuals, e.args.head, all),
                        Reference(cx, calls, actuals, e.args.tail.head, all))
  {
    var j := cx.m.jumps;
    var es, rest := e.args, e.args.tail;
    var o := Eval(cx.m, calls, j, actuals, es.head, all, NoJoin);
    var r := Eval(cx.m, calls, j, actuals, rest.head, all, NoJoin);
    var rs := EvalAll(cx.m, calls, j, actuals, rest, all, NoJoin);
    var os := EvalAll(cx.m, calls, j, actuals, es, all, NoJoin);
    assert rest.tail == Nil && EvalAll(cx.m, calls, j, actuals, Nil, all, NoJoin) == Oks([]);
    if o.Ok? {
      if r.Ok? {
        assert rs == Oks([r.value] + []);
        assert os == Oks([o.value] + ([r.value] + []));
        assert os.values == [o.value, r.value];
        assert os.values[1..] == [r.value];
        assert Reference(cx, calls, actuals, e, all) == Construct("List.cons", os.values);
      } else {
        assert rs == Fails(r) && os == Fails(r);
      }
    } else {
      assert os == Fails(o);
    }
  }

  lemma {:induction false} RefinesPrim(cx: Context, calls: nat, actuals: seq<Value>, e: Expr, all: Env, env: Env,
                                       lists: seq<Entry>, params: set<string>, buf: seq<Value>, prompt: bool)
    requires e.Prim? && Ready(cx, calls, actuals, e, all, env, lists, params, prompt)
    ensures Refined(prompt, Reference(cx, calls, actuals, e, all),
                    Build(cx, calls, actuals, e, env, lists, params, buf), buf)
    decreases calls, 0, Weight(lists) + Size(e), e, 0
  {
    if IsNil(e) {
      assert EvalAll(cx.m, calls, cx.m.jumps, actuals, Nil, all, NoJoin) == Oks([]);
      assert [] + buf[0..] == buf;
    } else if IsCons(e) {
      RefinesCons(cx, calls, actuals, e, all, env, lists, params, buf, prompt);
    } else {
      ValueEval(cx, calls, actuals, e, all, env, lists, prompt);
    }
  }

  lemma {:induction false} RefinesCall(cx: Context, calls: nat, actuals: seq<Value>, e: Expr, all: Env, env: Env,
                                       lists: seq<Entry>, params: set<string>, buf: seq<Value>, prompt: bool)
    requires e.Call? && Ready(cx, calls, actuals, e, all, env, lists, params, prompt)
    ensures Refined(prompt, Reference(cx, calls, actuals, e, all),
                    Build(cx, calls, actuals, e, env, lists, params, buf), buf)
    decreases calls, 0, Weight(lists) + Size(e), e, 0
  {
    var Call(f, es) := e;
    ValueAgrees(cx, calls, actuals, FreeAll(es), all, env, lists, prompt);
    CoincidenceAll(cx.m, calls, cx.m.jumps, actuals, es, env, all);
    var os := EvalAll(cx.m, calls, cx.m.jumps, actuals, es, all, NoJoin);
    if os.Oks? && calls > 0 {
      BuilderRuns(cx, calls - 1, f, os.values, buf, prompt);
    }
  }

  /** A buffer definition, called with any arguments and any buffer, fills the buffer with the
      list it denotes, or reports that the list does not fit. */
  lemma {:induction false} BuilderRuns(cx: Context, calls: nat, f: string, vs: seq<Value>, buf: seq<Value>,
                                       prompt: bool)
    requires BuilderModule(cx, prompt) && f in cx.buffers
    ensures Refined(prompt, Run(cx.m, calls, f, vs), BuildRun(cx, calls, f, vs, buf), buf)
    decreases calls, 1
  {
    if f in cx.m.defs && |cx.m.defs[f].params| == |vs| {
      var d := cx.m.defs[f];
      var env := Bind(d.params, vs, map[]);
      BindKeys(d.params, vs, map[]);
      assert BuilderDefinition(cx, d, prompt);
      BuilderRefines(cx, calls, vs, d.body, env, env, [], ListParams(d), buf, prompt);
    }
  }

  /** Without deferred lists the builder succeeds exactly when the list exists and fits. */
  lemma PromptExact(cx: Context, calls: nat, f: string, vs: seq<Value>, buf: seq<Value>)
    requires BuilderModule(cx, true) && f in cx.buffers
    ensures var r := Run(cx.m, calls, f, vs); var w := BuildRun(cx, calls, f, vs, buf);
      (w.Wrote? <==> r.Ok? && r.value.Seq? && |r.value.items| <= |buf|)
      && (w.Failed? && w.outcome != Err(OutputTooSmall) ==> w.outcome == if r.Ok? then Stuck else r)
  {
    BuilderRuns(cx, calls, f, vs, buf, true);
  }

  function Single(head: Expr): Expr {
    Prim(Ctor("List.cons"), Cons(head, Cons(Prim(Ctor("List.nil"), Nil), Nil)))
  }

  /** Deferral is why the claim is made for successful reference runs: the error of a list
      that is bound and never used is lost. */
  lemma DeferredErrorLost(cx: Context, calls: nat, actuals: seq<Value>, n: nat, buf: seq<Value>)
    requires cx.m.bounded && n + n >= U64
    ensures var sum := Prim(Add, Cons(Lit(NatLit(n)), Cons(Lit(NatLit(n)), Nil)));
            var e := Let("x", Single(sum), Prim(Ctor("List.nil"), Nil));
            && Accepted(cx, e, [], {}) && Eval(cx.m, calls, cx.m.jumps, actuals, e, map[], NoJoin) == Err(AddOverflow)
            && Build(cx, calls, actuals, e, map[], [], {}, buf) == Wrote(0, buf)
  {
    var j := cx.m.jumps;
    var lit := Lit(NatLit(n));
    var sum := Prim(Add, Cons(lit, Cons(lit, Nil)));
    var v, b := Single(sum), Prim(Ctor("List.nil"), Nil);
    var lits := Cons(lit, Cons(lit, Nil));
    assert EvalAll(cx.m, calls, j, actuals, Nil, map[], NoJoin) == Oks([]);
    assert EvalAll(cx.m, calls, j, actuals, lits.tail, map[], NoJoin) == Oks([Nat(n)] + []);
    assert EvalAll(cx.m, calls, j, actuals, lits, map[], NoJoin) == Oks([Nat(n)] + ([Nat(n)] + []));
    assert [Nat(n)] + ([Nat(n)] + []) == [Nat(n), Nat(n)];
    assert Eval(cx.m, calls, j, actuals, sum, map[], NoJoin) == Err(AddOverflow);
    ConsReference(cx, calls, actuals, v, map[]);
    assert V("x") !in Free(b);
    assert !TailCalls.Discardable(v) && !Inlined(v) && ListValued(cx, v, [], {});
    assert Accepted(cx, b, [Entry("x", v)], {});
    assert [] + [Entry("x", v)] == [Entry("x", v)];
    assert Build(cx, calls, actuals, b, map[], [Entry("x", v)], {}, buf) == Wrote(0, buf);
  }

  // ---- over the caller's array ----

  datatype Reply = Count(n: nat) | Failure(outcome: Outcome)

  function Answer(w: Written): Reply {
    match w
    case Wrote(n, _) => Count(n)
    case Failed(o, _) => Failure(o)
  }

  /** Below `from` nothing changed; from there on the array holds the built buffer. */
  ghost predicate Holds(out: array<Value>, from: nat, before: seq<Value>, r: Reply, w: Written)
    reads out
  {
    from <= |before| && out[..] == before[..from] + w.buffer && r == Answer(w)
  }

  method FillCopy(v: Value, out: array<Value>, from: nat) returns (r: Reply)
    requires from <= out.Length
    modifies out
    ensures Holds(out, from, old(out[..]), r, Copy(v, old(out[from..])))
  {
    if !v.Seq? { return Failure(Stuck); }
    var n := |v.items|;
    if n > out.Length - from { return Failure(Err(OutputTooSmall)); }
    ghost var was := out[..];
    assert Copied(was, from, v.items, 0) == was;
    for i := 0 to n
      invariant out[..] == Copied(was, from, v.items, i)
    {
      CopyOne(was, from, v.items, i);
      out[from + i] := v.items[i];
    }
    assert Copied(was, from, v.items, n) == was[..from] + Copy(v, was[from..]).buffer;
    r := Count(n);
  }

  /** `was` with the first `i` items put in place from `from` on. */
  function Copied(was: seq<Value>, from: nat, items: seq<Value>, i: nat): (r: seq<Value>)
    requires i <= |items| && from + |items| <= |was|
    ensures |r| == |was|
  {
    was[..from] + items[..i] + was[from + i..]
  }

  lemma CopyOne(was: seq<Value>, from: nat, items: seq<Value>, i: nat)
    requires i < |items| && from + |items| <= |was|
    ensures Copied(was, from, items, i)[from + i := items[i]] == Copied(was, from, items, i + 1)
  {
    assert was[from + i..] == [was[from + i]] + was[from + i + 1..];
    assert items[..i + 1] == items[..i] + [items[i]];
  }

  /** The emitted builder, writing each element as soon as it is known. */
  method Fill(cx: Context, calls: nat, actuals: seq<Value>, e: Expr, env: Env, lists: seq<Entry>,
              params: set<string>, out: array<Value>, from: nat) returns (r: Reply)
    requires from <= out.Length
    modifies out
    ensures Holds(out, from, old(out[..]), r, Build(cx, calls, actuals, e, env, lists, params, old(out[from..])))
    decreases calls, 0, Weight(lists) + Size(e), e, 1
  {
    match e {
      case If(c, t, f) =>
        var o := Eval(cx.m, calls, cx.m.jumps, actuals, c, env, NoJoin);
        if !o.Ok? { return Failure(o); }
        if !o.value.Bool? { return Failure(Stuck); }
        r := Fill(cx, calls, actuals, if o.value.b then t else f, env, lists, params, out, from);
      case Let(x, v, b) =>
        r := FillLet(cx, calls, actuals, e, env, lists, params, out, from);
      case Match(s, alts) =>
        var o := Eval(cx.m, calls, cx.m.jumps, actuals, s, env, NoJoin);
        if !o.Ok? { return Failure(o); }
        r := FillAlts(cx, calls, actuals, alts, o.value, env, lists, params, out, from);
      case Var(x) =>
        var k := Lookup(lists, x);
        if k >= 0 {
          WeightResolve(lists, k);
          r := Fill(cx, calls, actuals, lists[k].value, env, lists[..k], params, out, from);
        } else if x in params && x in env {
          r := FillCopy(env[x], out, from);
        } else {
          r := Failure(Stuck);
        }
      case Prim(_, _) =>
        r := FillPrim(cx, calls, actuals, e, env, lists, params, out, from);
      case Call(f, es) =>
        if f !in cx.buffers { return Failure(Stuck); }
        var os := EvalAll(cx.m, calls, cx.m.jumps, actuals, es, env, NoJoin);
        if os.Fails? { return Failure(os.outcome); }
        if calls == 0 { return Failure(OutOfFuel); }
        r := FillRun(cx, calls - 1, f, os.values, out, from);
      case _ =>
        r := Failure(Stuck);
    }
  }

  method FillLet(cx: Context, calls: nat, actuals: seq<Value>, e: Expr, env: Env, lists: seq<Entry>,
                 params: set<string>, out: array<Value>, from: nat) returns (r: Reply)
    requires e.Let? && from <= out.Length
    modifies out
    ensures Holds(out, from, old(out[..]), r, Build(cx, calls, actuals, e, env, lists, params, old(out[from..])))
    decreases calls, 0, Weight(lists) + Size(e), e, 0
  {
    var Let(x, v, b) := e;
    WeightPush(lists, Entry(x, v));
    ghost var buf := out[from..];
    ghost var w := Build(cx, calls, actuals, e, env, lists, params, buf);
    if Inlined(v) {
      assert w == Build(cx, calls, actuals, b, env[x := InlineValue(v)], lists + [Entry(x, v)], params, buf);
      r := Fill(cx, calls, actuals, b, env[x := InlineValue(v)], lists + [Entry(x, v)], params, out, from);
      return;
    }
    if TailCalls.Discardable(v) && V(x) !in Free(b) {
      assert w == Build(cx, calls, actuals, b, env, lists, params, buf);
      r := Fill(cx, calls, actuals, b, env, lists, params, out, from);
      return;
    }
    if ListValued(cx, v, lists, params) {
      assert w == Build(cx, calls, actuals, b, env, lists + [Entry(x, v)], params, buf);
      r := Fill(cx, calls, actuals, b, env, lists + [Entry(x, v)], params, out, from);
      return;
    }
    r := FillBound(cx, calls, actuals, e, env, lists, params, out, from);
  }

  method FillBound(cx: Context, calls: nat, actuals: seq<Value>, e: Expr, env: Env, lists: seq<Entry>,
                   params: set<string>, out: array<Value>, from: nat) returns (r: Reply)
    requires e.Let? && from <= out.Length
    requires !Inlined(e.value) && !(TailCalls.Discardable(e.value) && V(e.name) !in Free(e.body))
    requires !ListValued(cx, e.value, lists, params)
    modifies out
    ensures Holds(out, from, old(out[..]), r, Build(cx, calls, actuals, e, env, lists, params, old(out[from..])))
    decreases calls, 0, Weight(lists) + Size(e), e, 0, 0
  {
    var Let(x, v, b) := e;
    var o := Eval(cx.m, calls, cx.m.jumps, actuals, v, env, NoJoin);
    if !o.Ok? { return Failure(o); }
    r := Fill(cx, calls, actuals, b, env[x := o.value], lists, params, out, from);
  }

  method FillPrim(cx: Context, calls: nat, actuals: seq<Value>, e: Expr, env: Env, lists: seq<Entry>,
                  params: set<string>, out: array<Value>, from: nat) returns (r: Reply)
    requires e.Prim? && from <= out.Length
    modifies out
    ensures Holds(out, from, old(out[..]), r, Build(cx, calls, actuals, e, env, lists, params, old(out[from..])))
    decreases calls, 0, Weight(lists) + Size(e), e, 0
  {
    if IsNil(e) { return Count(0); }
    if IsCons(e) {
      r := FillCons(cx, calls, actuals, e, env, lists, params, out, from);
      return;
    }
    if !ListField(cx, e) { return Failure(Stuck); }
    var o := Eval(cx.m, calls, cx.m.jumps, actuals, e, env, NoJoin);
    if !o.Ok? { return Failure(o); }
    r := FillCopy(o.value, out, from);
  }

  method FillCons(cx: Context, calls: nat, actuals: seq<Value>, e: Expr, env: Env, lists: seq<Entry>,
                  params: set<string>, out: array<Value>, from: nat) returns (r: Reply)
    requires IsCons(e) && from <= out.Length
    modifies out
    ensures Holds(out, from, old(out[..]), r, Build(cx, calls, actuals, e, env, lists, params, old(out[from..])))
    decreases calls, 0, Weight(lists) + Size(e), e, 0, 0
  {
    ConsSize(e);
    if from == out.Length { return Failure(Err(OutputTooSmall)); }
    var o := Eval(cx.m, calls, cx.m.jumps, actuals, e.args.head, env, NoJoin);
    if !o.Ok? { return Failure(o); }
    ghost var was := out[..];
    out[from] := o.value;
    ghost var w := Build(cx, calls, actuals, e.args.tail.head, env, lists, params, out[from + 1..]);
    assert out[from + 1..] == was[from..][1..] && out[..] == was[from := o.value];
    r := Fill(cx, calls, actuals, e.args.tail.head, env, lists, params, out, from + 1);
    ConsHolds(was, from, o.value, out[..], w);
    if r.Count? { r := Count(r.n + 1); }
  }

  /** The element just written stands before what the rest became. */
  lemma ConsHolds(was: seq<Value>, from: nat, head: Value, now: seq<Value>, w: Written)
    requires from < |was| && Tail(w, was[from..][1..])
    requires now == was[from := head][..from + 1] + w.buffer
    ensures now == was[..from] + Behind(head, w, was[from..]).buffer
  {
    assert was[from := head][..from + 1] == was[..from] + [head];
  }

  method FillAlts(cx: Context, calls: nat, actuals: seq<Value>, alts: Alts, v: Value, env: Env, lists: seq<Entry>,
                  params: set<string>, out: array<Value>, from: nat) returns (r: Reply)
    requires from <= out.Length
    modifies out
    ensures Holds(out, from, old(out[..]), r,
                  BuildAlts(cx, calls, actuals, alts, v, env, lists, params, old(out[from..])))
    decreases calls, 0, Weight(lists) + SizeAlts(alts), alts
  {
    match alts {
      case NoMore =>
        r := Failure(Stuck);
      case Default(b) =>
        r := Fill(cx, calls, actuals, b, env, lists, params, out, from);
      case Alt(c, bs, b, rest) =>
        var fs := Fields(c, |bs|, v);
        if fs != [] {
          r := Fill(cx, calls, actuals, b, Bind(bs, fs[0], env), lists, params, out, from);
        } else {
          r := FillAlts(cx, calls, actuals, rest, v, env, lists, params, out, from);
        }
    }
  }

  method FillRun(cx: Context, calls: nat, f: string, vs: seq<Value>, out: array<Value>, from: nat) returns (r: Reply)
    requires from <= out.Length
    modifies out
    ensures Holds(out, from, old(out[..]), r, BuildRun(cx, calls, f, vs, old(out[from..])))
    decreases calls, 1
  {
    if f !in cx.m.defs || |cx.m.defs[f].params| != |vs| { return Failure(Stuck); }
    var d := cx.m.defs[f];
    r := Fill(cx, calls, vs, d.body, Bind(d.params, vs, map[]), [], ListParams(d), out, from);
  }

  /** A list that exists is in front of the buffer, the rest untouched, or does not fit. */
  predicate Delivered(reference: Outcome, r: Reply, before: seq<Value>, after: seq<Value>) {
    reference.Ok? && reference.value.Seq? ==>
      var xs := reference.value.items;
      if |xs| <= |before| then r == Count(|xs|) && after == xs + before[|xs|..]
      else r == Failure(Err(OutputTooSmall))
  }

  /** The exported function: a list that exists is delivered whole, in front, or refused. */
  method FillBuffer(cx: Context, calls: nat, f: string, vs: seq<Value>, out: array<Value>) returns (r: Reply)
    requires BuilderModule(cx, false) && f in cx.buffers
    modifies out
    ensures Delivered(Run(cx.m, calls, f, vs), r, old(out[..]), out[..])
  {
    ghost var buf := out[..];
    assert buf == out[0..];
    BuilderRuns(cx, calls, f, vs, buf, false);
    r := FillRun(cx, calls, f, vs, out, 0);
    assert [] + BuildRun(cx, calls, f, vs, buf).buffer == BuildRun(cx, calls, f, vs, buf).buffer;
  }
}
