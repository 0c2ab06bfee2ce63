/** Which definitions can fail (`signatures`, `is_fallible`).

    `Signatures` runs the promotion loop to its end.  The result is the least fixpoint, a
    definition that keeps a plain result type never evaluates to a compute error, and one
    that is promoted has a call path to the reason.
 */
module Fallibility {
  import opened Ir
  import opened Semantics

  datatype Shape = StaticList | Buffer | Plain | Fallible

  type Shapes = map<string, Shape>

  predicate CheckedOp(op: Op) {
    op.Add? || op.Mul? || op.Shl? || op.Pow?
  }

  /** The checked operators are exactly those that some pair of machine words makes fail. */
  lemma CheckedExactly(op: Op)
    ensures CheckedOp(op) <==> exists a: nat, b: nat :: a < U64 && b < U64 && Arith(op, a, b, true).Err?
  {
    if CheckedOp(op) {
      var a, b := FailingWords(op);
      assert a < U64 && b < U64 && Arith(op, a, b, true).Err?;
    }
  }

  lemma FailingWords(op: Op) returns (a: nat, b: nat)
    requires CheckedOp(op)
    ensures a < U64 && b < U64 && Arith(op, a, b, true).Err?
  {
    a := U64 - 1;
    if op.Add? {
      b := 1;
    } else if op.Shl? {
      b := 64;
    } else {
      b := 2;
      assert Power(a, 1) == a * Power(a, 0) == a;
      assert Power(a, 2) == a * a;
    }
  }

  predicate CanFail(f: string, shapes: Shapes) {
    f in shapes && (shapes[f].Fallible? || shapes[f].Buffer?)
  }

  /** The expression performs, or reaches, an operation that can fail. */
  predicate IsFallible(e: Expr, shapes: Shapes) {
    || (e.Prim? && CheckedOp(e.op))
    || (e.Call? && CanFail(e.callee, shapes))
    || (exists c :: c in Children(e) && IsFallible(c, shapes))
  }

  // ---- reasons ----

  predicate Checks(e: Expr) {
    (e.Prim? && CheckedOp(e.op)) || (exists c :: c in Children(e) && Checks(c))
  }

  predicate Calls(e: Expr, g: string) {
    (e.Call? && e.callee == g) || (exists c :: c in Children(e) && Calls(c, g))
  }

  lemma {:induction false} FallibleReason(e: Expr, shapes: Shapes)
    ensures IsFallible(e, shapes) <==> Checks(e) || exists g :: CanFail(g, shapes) && Calls(e, g)
  {
    forall c | c in Children(e)
      ensures IsFallible(c, shapes) <==> Checks(c) || exists g :: CanFail(g, shapes) && Calls(c, g)
    {
      FallibleReason(c, shapes);
    }
    if e.Call? && CanFail(e.callee, shapes) {
      assert Calls(e, e.callee);
    }
    if c :| c in Children(e) && IsFallible(c, shapes) {
      if !Checks(c) {
        var g :| CanFail(g, shapes) && Calls(c, g);
        assert Calls(e, g);
      }
    }
  }

  function Initial(d: Definition): Shape {
    if d.ret.List? then (if d.params == [] then StaticList else Buffer) else Plain
  }

  predicate WellNamed(defs: seq<Definition>) {
    forall i, k :: 0 <= i < k < |defs| ==> defs[i].name != defs[k].name
  }

  /** A chain of value-returning definitions, each calling the next, that ends at a checked
      operation or at a call that fills a buffer. */
  ghost predicate Reaches(defs: seq<Definition>, path: seq<nat>)
  {
    && path != []
    && (forall i :: 0 <= i < |path| ==> path[i] < |defs| && Initial(defs[path[i]]).Plain?)
    && (forall i :: 0 <= i < |path| - 1 ==> Calls(defs[path[i]].body, defs[path[i + 1]].name))
    && var last := defs[path[|path| - 1]].body;
       (Checks(last) || exists k :: 0 <= k < |defs| && Initial(defs[k]).Buffer? && Calls(last, defs[k].name))
  }

  ghost predicate HasReason(defs: seq<Definition>, i: nat) {
    exists path :: Reaches(defs, path) && path[0] == i
  }

  /** Every definition has a shape, and only definitions do. */
  ghost predicate Known(defs: seq<Definition>, shapes: Shapes) {
    && (forall i :: 0 <= i < |defs| ==> defs[i].name in shapes)
    && (forall f :: f in shapes ==> exists k :: 0 <= k < |defs| && defs[k].name == f)
  }

  ghost predicate JustifiedAt(defs: seq<Definition>, shapes: Shapes, i: nat)
    requires i < |defs| && defs[i].name in shapes
  {
    var s := shapes[defs[i].name];
    s == Initial(defs[i]) || (s.Fallible? && Initial(defs[i]).Plain? && HasReason(defs, i))
  }

  /** Shapes only ever move from plain to fallible, and only for a reason. */
  ghost predicate Justified(defs: seq<Definition>, shapes: Shapes) {
    && Known(defs, shapes)
    && (forall i :: 0 <= i < |defs| ==> JustifiedAt(defs, shapes, i))
  }

  /** A chain grows at its front. */
  lemma ExtendReason(defs: seq<Definition>, i: nat, path: seq<nat>)
    requires i < |defs| && Initial(defs[i]).Plain?
    requires Reaches(defs, path) && Calls(defs[i].body, defs[path[0]].name)
    ensures Reaches(defs, [i] + path)
  {
    var longer := [i] + path;
    assert longer[|longer| - 1] == path[|path| - 1];
    forall j | 0 <= j < |longer| - 1
      ensures Calls(defs[longer[j]].body, defs[longer[j + 1]].name)
    {
      if j > 0 {
        assert longer[j] == path[j - 1] && longer[j + 1] == path[j];
      }
    }
  }

  lemma CalleeReason(defs: seq<Definition>, shapes: Shapes, i: nat, k: nat)
    requires Justified(defs, shapes) && i < |defs| && k < |defs|
    requires Initial(defs[i]).Plain?
    requires CanFail(defs[k].name, shapes) && Calls(defs[i].body, defs[k].name)
    ensures HasReason(defs, i)
  {
    assert JustifiedAt(defs, shapes, k);
    if Initial(defs[k]).Buffer? {
      assert Reaches(defs, [i]);
    } else {
      var path :| Reaches(defs, path) && path[0] == k;
      ExtendReason(defs, i, path);
      assert ([i] + path)[0] == i;
    }
  }

  lemma Promote(defs: seq<Definition>, shapes: Shapes, i: nat)
    requires Justified(defs, shapes) && i < |defs|
    requires Initial(defs[i]).Plain? && IsFallible(defs[i].body, shapes)
    ensures HasReason(defs, i)
  {
    var e := defs[i].body;
    FallibleReason(e, shapes);
    if Checks(e) {
      assert Reaches(defs, [i]);
    } else {
      var g :| CanFail(g, shapes) && Calls(e, g);
      var k :| 0 <= k < |defs| && defs[k].name == g;
      CalleeReason(defs, shapes, i, k);
    }
  }

  /** No definition is left to promote. */
  ghost predicate Closed(defs: seq<Definition>, shapes: Shapes) {
    forall i :: 0 <= i < |defs| && defs[i].name in shapes && shapes[defs[i].name].Plain? ==>
      !IsFallible(defs[i].body, shapes)
  }

  lemma FalliblePromotes(defs: seq<Definition>, shapes: Shapes, i: nat)
    requires Justified(defs, shapes) && Closed(defs, shapes) && i < |defs|
    requires Initial(defs[i]).Plain? && IsFallible(defs[i].body, shapes)
    ensures shapes[defs[i].name].Fallible?
  {
    assert JustifiedAt(defs, shapes, i);
  }

  /** The end of a chain is fallible whatever the shapes say. */
  lemma EndPromotes(defs: seq<Definition>, shapes: Shapes, i: nat)
    requires Justified(defs, shapes) && i < |defs| && Reaches(defs, [i])
    ensures IsFallible(defs[i].body, shapes)
  {
    var e := defs[i].body;
    FallibleReason(e, shapes);
    if !Checks(e) {
      assert [i][0] == i;
      var k :| 0 <= k < |defs| && Initial(defs[k]).Buffer? && Calls(e, defs[k].name);
      assert JustifiedAt(defs, shapes, k);
      assert CanFail(defs[k].name, shapes) && Calls(e, defs[k].name);
    }
  }

  lemma TailReaches(defs: seq<Definition>, path: seq<nat>)
    requires Reaches(defs, path) && |path| > 1
    ensures Reaches(defs, path[1..])
    ensures Calls(defs[path[0]].body, defs[path[1]].name)
  {
    var shorter := path[1..];
    assert shorter[|shorter| - 1] == path[|path| - 1];
    forall j | 0 <= j < |shorter| - 1
      ensures Calls(defs[shorter[j]].body, defs[shorter[j + 1]].name)
    {
      assert Calls(defs[path[j + 1]].body, defs[path[j + 1 + 1]].name);
    }
    assert Calls(defs[path[0]].body, defs[path[0 + 1]].name);
  }

  lemma {:induction false} ReasonPromotes(defs: seq<Definition>, shapes: Shapes, path: seq<nat>)
    requires Justified(defs, shapes) && Closed(defs, shapes) && Reaches(defs, path)
    ensures shapes[defs[path[0]].name].Fallible?
    decreases |path|
  {
    if |path| == 1 {
      assert path == [path[0]];
      EndPromotes(defs, shapes, path[0]);
    } else {
      TailReaches(defs, path);
      ReasonPromotes(defs, shapes, path[1..]);
      FallibleReason(defs[path[0]].body, shapes);
      assert CanFail(defs[path[1]].name, shapes);
    }
    FalliblePromotes(defs, shapes, path[0]);
  }

  function PlainNames(shapes: Shapes): set<string> {
    set f | f in shapes && shapes[f].Plain?
  }

  /** One promotion keeps every shape justified and leaves one plain definition fewer. */
  lemma Promoted(defs: seq<Definition>, shapes: Shapes, i: nat)
    requires WellNamed(defs) && Justified(defs, shapes) && i < |defs|
    requires shapes[defs[i].name].Plain? && IsFallible(defs[i].body, shapes)
    ensures Justified(defs, shapes[defs[i].name := Fallible])
    ensures PlainNames(shapes[defs[i].name := Fallible]) < PlainNames(shapes)
  {
    assert JustifiedAt(defs, shapes, i);
    Promote(defs, shapes, i);
    var f := defs[i].name;
    var after := shapes[f := Fallible];
    assert f in PlainNames(shapes) && f !in PlainNames(after);
    forall k | 0 <= k < |defs|
      ensures JustifiedAt(defs, after, k)
    {
      assert JustifiedAt(defs, shapes, k);
    }
  }

  method InitialShapes(defs: seq<Definition>) returns (shapes: Shapes)
    requires WellNamed(defs)
    ensures Known(defs, shapes)
    ensures forall i :: 0 <= i < |defs| ==> shapes[defs[i].name] == Initial(defs[i])
  {
    shapes := map[];
    for i := 0 to |defs|
      invariant forall k :: 0 <= k < i ==> defs[k].name in shapes && shapes[defs[k].name] == Initial(defs[k])
      invariant forall f :: f in shapes ==> exists k :: 0 <= k < |defs| && defs[k].name == f
    {
      shapes := shapes[defs[i].name := Initial(defs[i])];
    }
  }

  /** One pass over the module; promotions are visible to later definitions at once. */
  method PromoteAll(defs: seq<Definition>, before: Shapes) returns (shapes: Shapes, changed: bool)
    requires WellNamed(defs) && Justified(defs, before)
    ensures Justified(defs, shapes)
    ensures changed ==> PlainNames(shapes) < PlainNames(before)
    ensures !changed ==> shapes == before && Closed(defs, shapes)
  {
    shapes, changed := before, false;
    for i := 0 to |defs|
      invariant Justified(defs, shapes)
      invariant changed ==> PlainNames(shapes) < PlainNames(before)
      invariant !changed ==> shapes == before
      invariant !changed ==> Closed(defs[..i], shapes)
    {
      if shapes[defs[i].name].Plain? && IsFallible(defs[i].body, shapes) {
        Promoted(defs, shapes, i);
        shapes := shapes[defs[i].name := Fallible];
        changed := true;
      } else {
        assert defs[..i + 1] == defs[..i] + [defs[i]];
      }
    }
    assert defs[..|defs|] == defs;
  }

  lemma FixpointExact(defs: seq<Definition>, shapes: Shapes, i: nat)
    requires WellNamed(defs) && Justified(defs, shapes) && Closed(defs, shapes) && i < |defs|
    ensures shapes[defs[i].name].Fallible? <==> HasReason(defs, i)
    ensures !shapes[defs[i].name].Fallible? ==> shapes[defs[i].name] == Initial(defs[i])
  {
    assert JustifiedAt(defs, shapes, i);
    if HasReason(defs, i) {
      var path :| Reaches(defs, path) && path[0] == i;
      ReasonPromotes(defs, shapes, path);
    }
  }

  /** Definitions that return lists keep the shape their parameters decide. */
  lemma ListShapes(defs: seq<Definition>, shapes: Shapes)
    requires Justified(defs, shapes)
    ensures forall i :: 0 <= i < |defs| ==>
              && (shapes[defs[i].name].StaticList? <==> defs[i].ret.List? && defs[i].params == [])
              && (shapes[defs[i].name].Buffer? <==> defs[i].ret.List? && defs[i].params != [])
  {
    forall i | 0 <= i < |defs|
      ensures (shapes[defs[i].name].StaticList? <==> defs[i].ret.List? && defs[i].params == [])
              && (shapes[defs[i].name].Buffer? <==> defs[i].ret.List? && defs[i].params != [])
    {
      assert JustifiedAt(defs, shapes, i);
    }
  }

  /** The least fixpoint: fallible exactly when a call path reaches a reason. */
  method Signatures(defs: seq<Definition>) returns (shapes: Shapes)
    requires WellNamed(defs)
    ensures Justified(defs, shapes) && Closed(defs, shapes)
    ensures forall i :: 0 <= i < |defs| ==>
              (shapes[defs[i].name].Fallible? <==> HasReason(defs, i))
              && (!shapes[defs[i].name].Fallible? ==> shapes[defs[i].name] == Initial(defs[i]))
    ensures forall i :: 0 <= i < |defs| ==>
              && (shapes[defs[i].name].StaticList? <==> defs[i].ret.List? && defs[i].params == [])
              && (shapes[defs[i].name].Buffer? <==> defs[i].ret.List? && defs[i].params != [])
  {
    shapes := InitialShapes(defs);
    assert forall i :: 0 <= i < |defs| ==> JustifiedAt(defs, shapes, i);
    var changed := true;
    while changed
      invariant Justified(defs, shapes)
      invariant !changed ==> Closed(defs, shapes)
      decreases PlainNames(shapes), changed
    {
      shapes, changed := PromoteAll(defs, shapes);
    }
    forall i | 0 <= i < |defs|
      ensures (shapes[defs[i].name].Fallible? <==> HasReason(defs, i))
              && (!shapes[defs[i].name].Fallible? ==> shapes[defs[i].name] == Initial(defs[i]))
    {
      FixpointExact(defs, shapes, i);
    }
    ListShapes(defs, shapes);
  }

  // ---- plain definitions never fail ----

  ghost predicate SafeJoins(js: Joins, shapes: Shapes) {
    js.Join? ==> !IsFallible(js.cont, shapes) && SafeJoins(js.outer, shapes)
  }

  lemma {:induction false} FindSafe(l: string, js: Joins, shapes: Shapes)
    requires SafeJoins(js, shapes)
    ensures SafeJoins(Find(l, js), shapes)
  {
    if js.Join? && js.target != l {
      FindSafe(l, js.outer, shapes);
    }
  }

  ghost predicate SafeAll(cs: seq<Expr>, shapes: Shapes) {
    forall c :: c in cs ==> !IsFallible(c, shapes)
  }

  /** The module the shapes were computed for; static lists that compute are refused. */
  ghost predicate Shaped(m: Machine, shapes: Shapes) {
    forall f :: f in m.defs && !CanFail(f, shapes) ==> !IsFallible(m.defs[f].body, shapes)
  }

  lemma {:induction false} NoError(m: Machine, shapes: Shapes, calls: nat, jumps: nat, actuals: seq<Value>,
                                   e: Expr, env: Env, js: Joins)
    requires Shaped(m, shapes) && !IsFallible(e, shapes) && SafeJoins(js, shapes)
    ensures !Eval(m, calls, jumps, actuals, e, env, js).Err?
    decreases calls, jumps, e, 1
  {
    match e
    case Lit(_) =>
    case Var(_) =>
    case Param(_) =>
    case Unreachable =>
    case Jp(_, _, _) =>
    case Prim(_, _) => NoErrorPrim(m, shapes, calls, jumps, actuals, e, env, js);
    case If(_, _, _) => NoErrorIf(m, shapes, calls, jumps, actuals, e, env, js);
    case Let(_, _, _) => NoErrorLet(m, shapes, calls, jumps, actuals, e, env, js);
    case Match(_, _) => NoErrorMatch(m, shapes, calls, jumps, actuals, e, env, js);
    case Call(_, _) => NoErrorCall(m, shapes, calls, jumps, actuals, e, env, js);
    case Jmp(_, _) => NoErrorJump(m, shapes, calls, jumps, actuals, e, env, js);
  }

  lemma {:induction false} NoErrorPrim(m: Machine, shapes: Shapes, calls: nat, jumps: nat, actuals: seq<Value>,
                                       e: Expr, env: Env, js: Joins)
    requires e.Prim? && Shaped(m, shapes) && !IsFallible(e, shapes) && SafeJoins(js, shapes)
    ensures !Eval(m, calls, jumps, actuals, e, env, js).Err?
    decreases calls, jumps, e, 0
  {
    NoErrorAll(m, shapes, calls, jumps, actuals, e.args, env, js);
  }

  lemma {:induction false} NoErrorIf(m: Machine, shapes: Shapes, calls: nat, jumps: nat, actuals: seq<Value>,
                                     e: Expr, env: Env, js: Joins)
    requires e.If? && Shaped(m, shapes) && !IsFallible(e, shapes) && SafeJoins(js, shapes)
    ensures !Eval(m, calls, jumps, actuals, e, env, js).Err?
    decreases calls, jumps, e, 0
  {
    assert e.cond in Children(e) && e.yes in Children(e) && e.no in Children(e);
    NoError(m, shapes, calls, jumps, actuals, e.cond, env, js);
    NoError(m, shapes, calls, jumps, actuals, e.yes, env, js);
    NoError(m, shapes, calls, jumps, actuals, e.no, env, js);
  }

  lemma {:induction false} NoErrorMatch(m: Machine, shapes: Shapes, calls: nat, jumps: nat, actuals: seq<Value>,
                                        e: Expr, env: Env, js: Joins)
    requires e.Match? && Shaped(m, shapes) && !IsFallible(e, shapes) && SafeJoins(js, shapes)
    ensures !Eval(m, calls, jumps, actuals, e, env, js).Err?
    decreases calls, jumps, e, 0
  {
    var Match(s, alts) := e;
    assert s in Children(e) && forall c :: c in Bodies(alts) ==> c in Children(e);
    NoError(m, shapes, calls, jumps, actuals, s, env, js);
    var o := Eval(m, calls, jumps, actuals, s, env, js);
    if o.Ok? {
      NoErrorAlts(m, shapes, calls, jumps, actuals, alts, o.value, env, js);
    }
  }

  lemma {:induction false} NoErrorCall(m: Machine, shapes: Shapes, calls: nat, jumps: nat, actuals: seq<Value>,
                                       e: Expr, env: Env, js: Joins)
    requires e.Call? && Shaped(m, shapes) && !IsFallible(e, shapes) && SafeJoins(js, shapes)
    ensures !Eval(m, calls, jumps, actuals, e, env, js).Err?
    decreases calls, jumps, e, 0
  {
    NoErrorAll(m, shapes, calls, jumps, actuals, e.args, env, js);
    var os := EvalAll(m, calls, jumps, actuals, e.args, env, js);
    if os.Oks? && calls > 0 {
      NoErrorRun(m, shapes, calls - 1, e.callee, os.values);
    }
  }

  lemma {:induction false} NoErrorLet(m: Machine, shapes: Shapes, calls: nat, jumps: nat, actuals: seq<Value>,
                                      e: Expr, env: Env, js: Joins)
    requires e.Let? && Shaped(m, shapes) && !IsFallible(e, shapes) && SafeJoins(js, shapes)
    ensures !Eval(m, calls, jumps, actuals, e, env, js).Err?
    decreases calls, jumps, e, 0
  {
    var Let(x, v, b) := e;
    assert v in Children(e) && b in Children(e);
    NoError(m, shapes, calls, jumps, actuals, v, env, js);
    var o := Eval(m, calls, jumps, actuals, v, env, js);
    if o.Ok? {
      assert v.Jp? ==> v.cont in Children(v);
      NoError(m, shapes, calls, jumps, actuals, b, env[x := o.value], Visible(v, env, js));
    }
  }

  lemma {:induction false} NoErrorJump(m: Machine, shapes: Shapes, calls: nat, jumps: nat, actuals: seq<Value>,
                                       e: Expr, env: Env, js: Joins)
    requires e.Jmp? && Shaped(m, shapes) && !IsFallible(e, shapes) && SafeJoins(js, shapes)
    ensures !Eval(m, calls, jumps, actuals, e, env, js).Err?
    decreases calls, jumps, e, 0
  {
    var Jmp(l, es) := e;
    NoErrorAll(m, shapes, calls, jumps, actuals, es, env, js);
    var os := EvalAll(m, calls, jumps, actuals, es, env, js);
    var s := Find(l, js);
    FindSafe(l, js, shapes);
    if os.Oks? && s.Join? && |s.params| == |os.values| && jumps > 0 {
      NoError(m, shapes, calls, jumps - 1, actuals, s.cont, Bind(s.params, os.values, s.env), s);
    }
  }

  lemma {:induction false} NoErrorAll(m: Machine, shapes: Shapes, calls: nat, jumps: nat, actuals: seq<Value>,
                                      es: Exprs, env: Env, js: Joins)
    requires Shaped(m, shapes) && SafeAll(Listed(es), shapes) && SafeJoins(js, shapes)
    ensures var os := EvalAll(m, calls, jumps, actuals, es, env, js); os.Fails? ==> !os.outcome.Err?
    decreases calls, jumps, es
  {
    match es
    case Nil =>
    case Cons(e, tail) =>
      assert e in Listed(es) && forall c :: c in Listed(tail) ==> c in Listed(es);
      NoError(m, shapes, calls, jumps, actuals, e, env, js);
      NoErrorAll(m, shapes, calls, jumps, actuals, tail, env, js);
  }

  lemma {:induction false} NoErrorAlts(m: Machine, shapes: Shapes, calls: nat, jumps: nat, actuals: seq<Value>,
                                       alts: Alts, v: Value, env: Env, js: Joins)
    requires Shaped(m, shapes) && SafeAll(Bodies(alts), shapes) && SafeJoins(js, shapes)
    ensures !EvalAlts(m, calls, jumps, actuals, alts, v, env, js).Err?
    decreases calls, jumps, alts
  {
    match alts
    case NoMore =>
    case Default(b) =>
      assert b in Bodies(alts);
      NoError(m, shapes, calls, jumps, actuals, b, env, js);
    case Alt(c, bs, b, rest) =>
      assert b in Bodies(alts) && forall d :: d in Bodies(rest) ==> d in Bodies(alts);
      var fs := Fields(c, |bs|, v);
      if fs != [] {
        NoError(m, shapes, calls, jumps, actuals, b, Bind(bs, fs[0], env), js);
      } else {
        NoErrorAlts(m, shapes, calls, jumps, actuals, rest, v, env, js);
      }
  }

  /** A call of a definition that is neither fallible nor buffer-filling never errs. */
  lemma {:induction false} NoErrorRun(m: Machine, shapes: Shapes, calls: nat, f: string, vs: seq<Value>)
    requires Shaped(m, shapes) && !CanFail(f, shapes)
    ensures !Run(m, calls, f, vs).Err?
    decreases calls, m.jumps + 1
  {
    if f in m.defs && |m.defs[f].params| == |vs| {
      NoError(m, shapes, calls, m.jumps, vs, m.defs[f].body, Bind(m.defs[f].params, vs, map[]), NoJoin);
    }
  }

  /** The module of these definitions. */
  ghost predicate ModuleOf(m: Machine, defs: seq<Definition>) {
    && m.defs.Keys == (set i | 0 <= i < |defs| :: defs[i].name)
    && (forall i :: 0 <= i < |defs| ==> m.defs[defs[i].name] == defs[i])
  }

  /** With computed shapes, and every accepted static list a constant, a value-returning
      definition without a reason to fail never evaluates to a compute error. */
  lemma PlainNeverFails(m: Machine, defs: seq<Definition>, shapes: Shapes, i: nat, calls: nat, vs: seq<Value>)
    requires WellNamed(defs) && ModuleOf(m, defs) && Justified(defs, shapes) && Closed(defs, shapes)
    requires forall k :: 0 <= k < |defs| && Initial(defs[k]).StaticList? ==> !IsFallible(defs[k].body, shapes)
    requires i < |defs| && Initial(defs[i]).Plain? && !HasReason(defs, i)
    ensures !Run(m, calls, defs[i].name, vs).Err?
  {
    forall f | f in m.defs && !CanFail(f, shapes)
      ensures !IsFallible(m.defs[f].body, shapes)
    {
      var k :| 0 <= k < |defs| && defs[k].name == f;
      assert JustifiedAt(defs, shapes, k);
    }
    FixpointExact(defs, shapes, i);
    NoErrorRun(m, shapes, calls, defs[i].name, vs);
  }
}
