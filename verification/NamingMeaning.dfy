/** Renaming without capture preserves meaning, and establishes what later passes assume.

    `NormalizationPreservesRuns` has no closedness hypothesis: an unbound name stays
    unbound, because a binder keeps its spelling or takes one the source never mentions.
 */
module NamingMeaning {
  import opened Ir
  import opened Semantics
  import opened Naming

  // ---- environments ----

  /** `env'` holds the value of every visible variable under its new name, holds the actuals
      under the new formals, and binds no other mentioned name. */
  ghost predicate Tracks(env: Env, env': Env, vars: map<string, string>, formals: seq<string>,
                         actuals: seq<Value>, r: Rules)
  {
    && env.Keys == vars.Keys
    && (forall x :: x in vars ==> vars[x] in env' && env'[vars[x]] == env[x])
    && |formals| == |actuals|
    && (forall i :: 0 <= i < |formals| ==> formals[i] in env' && env'[formals[i]] == actuals[i])
    && (forall x :: x in env' && !Unmentioned(x, r) ==> x in vars)
  }

  lemma {:induction false} BindTracks(xs: seq<string>, ys: seq<string>, vs: seq<Value>, env: Env, env': Env,
                                      vars: map<string, string>, formals: seq<string>, actuals: seq<Value>, r: Rules)
    requires Tracks(env, env', vars, formals, actuals, r)
    requires StandAll(xs, ys, vars, formals, r) && |vs| == |xs|
    ensures Tracks(Bind(xs, vs, env), Bind(ys, vs, env'), Bind(xs, ys, vars), formals, actuals, r)
    decreases |xs|
  {
    if xs != [] {
      var x, y := xs[0], ys[0];
      assert Stands(x, y, vars, formals, r);
      forall i | 0 <= i < |xs| - 1
        ensures Stands(xs[1..][i], ys[1..][i], vars[x := y], formals, r)
      {
        assert Stands(xs[i + 1], ys[i + 1], vars, formals, r);
      }
      assert Distinct(xs[1..]) && Distinct(ys[1..]);
      BindTracks(xs[1..], ys[1..], vs[1..], env[x := vs[0]], env'[y := vs[0]], vars[x := y], formals, actuals, r);
    }
  }

  // ---- joins ----

  /** The scopes in which the joins in scope were declared, innermost first. */
  datatype Scopes = Outermost | Scope(vars: map<string, string>, joins: map<string, string>, outer: Scopes)

  ghost predicate JoinsTrack(js: Joins, js': Joins, joins: map<string, string>, ws: Scopes,
                             formals: seq<string>, actuals: seq<Value>, r: Rules)
    decreases js
  {
    if js.NoJoin? then js'.NoJoin? && ws.Outermost? && joins == map[] else
    && js'.Join? && ws.Scope?
    && joins == ws.joins[js.target := js'.target]
    && Stands(js.target, js'.target, ws.joins, [], r)
    && StandAll(js.params, js'.params, ws.vars, formals, r)
    && Tracks(js.env, js'.env, ws.vars, formals, actuals, r)
    && Renamed(js.cont, js'.cont, Bind(js.params, js'.params, ws.vars), joins, formals, r)
    && JoinsTrack(js.outer, js'.outer, ws.joins, ws.outer, formals, actuals, r)
  }

  /** A jump finds the renamed join, or none on either side. */
  lemma {:induction false} FindTracks(l: string, l': string, js: Joins, js': Joins, joins: map<string, string>,
                                      ws: Scopes, formals: seq<string>, actuals: seq<Value>, r: Rules)
    returns (inner: map<string, string>, ws': Scopes)
    requires JoinsTrack(js, js', joins, ws, formals, actuals, r) && Refers(l, l', joins, r)
    ensures JoinsTrack(Find(l, js), Find(l', js'), inner, ws', formals, actuals, r)
    decreases js
  {
    if js.NoJoin? || js.target == l {
      inner, ws' := joins, ws;
    } else {
      assert js'.target != l';
      inner, ws' := FindTracks(l, l', js.outer, js'.outer, ws.joins, ws.outer, formals, actuals, r);
    }
  }

  /** Everything one activation relates: variables, formals and joins. */
  ghost predicate Relates(env: Env, env': Env, vars: map<string, string>, js: Joins, js': Joins,
                          joins: map<string, string>, ws: Scopes, formals: seq<string>, actuals: seq<Value>, r: Rules)
  {
    Tracks(env, env', vars, formals, actuals, r) && JoinsTrack(js, js', joins, ws, formals, actuals, r)
  }

  function Entering(v: Expr, vars: map<string, string>, joins: map<string, string>, ws: Scopes): Scopes {
    if v.Jp? then Scope(vars, joins, ws) else ws
  }

  lemma LetRelates(e: Expr, e': Expr, u: Value, env: Env, env': Env, vars: map<string, string>, js: Joins, js': Joins,
                   joins: map<string, string>, ws: Scopes, formals: seq<string>, actuals: seq<Value>, r: Rules)
    requires e.Let? && Renamed(e, e', vars, joins, formals, r)
    requires Relates(env, env', vars, js, js', joins, ws, formals, actuals, r)
    ensures Relates(env[e.name := u], env'[e'.name := u], vars[e.name := e'.name],
                    Visible(e.value, env, js), Visible(e'.value, env', js'), Visibly(e.value, e'.value, joins),
                    Entering(e.value, vars, joins, ws), formals, actuals, r)
  {
    var v, v' := e.value, e'.value;
    assert Renamed(v, v', vars, joins, formals, r);
    assert Stands(e.name, e'.name, vars, formals, r);
    if v.Jp? {
      assert JoinsTrack(Visible(v, env, js), Visible(v', env', js'), Visibly(v, v', joins),
                        Entering(v, vars, joins, ws), formals, actuals, r);
    }
  }

  lemma AltRelates(bs: seq<string>, bs': seq<string>, fs: seq<Value>, env: Env, env': Env, vars: map<string, string>,
                   js: Joins, js': Joins, joins: map<string, string>, ws: Scopes, formals: seq<string>,
                   actuals: seq<Value>, r: Rules)
    requires StandAll(bs, bs', vars, formals, r) && |fs| == |bs|
    requires Relates(env, env', vars, js, js', joins, ws, formals, actuals, r)
    ensures Relates(Bind(bs, fs, env), Bind(bs', fs, env'), Bind(bs, bs', vars), js, js', joins, ws, formals, actuals,
                    r)
  {
    BindTracks(bs, bs', fs, env, env', vars, formals, actuals, r);
  }

  // ---- evaluation ----

  /** `m2` is `m1` with every definition normalised. */
  ghost predicate NormalizedMachine(m1: Machine, m2: Machine, lx: Lexicon) {
    && m1.bounded == m2.bounded && m1.jumps == m2.jumps
    && m1.defs.Keys == m2.defs.Keys
    && (forall f {:trigger Normalizes(m1.defs[f], m2.defs[f], lx)} :: f in m1.defs ==>
        Normalizes(m1.defs[f], m2.defs[f], lx))
  }

  lemma {:induction false} RenamedEval(
    m1: Machine, m2: Machine, lx: Lexicon, calls: nat, jumps: nat, actuals: seq<Value>,
    e: Expr, e': Expr, env: Env, env': Env, vars: map<string, string>,
    js: Joins, js': Joins, joins: map<string, string>, ws: Scopes, formals: seq<string>, r: Rules)
    requires NormalizedMachine(m1, m2, lx)
    requires Renamed(e, e', vars, joins, formals, r)
    requires Relates(env, env', vars, js, js', joins, ws, formals, actuals, r)
    ensures Eval(m1, calls, jumps, actuals, e, env, js) == Eval(m2, calls, jumps, actuals, e', env', js')
    decreases calls, jumps, e, 1
  {
    match e
    case If(_, _, _) =>
      RenamedIf(m1, m2, lx, calls, jumps, actuals, e, e', env, env', vars, js, js', joins, ws, formals, r);
    case Let(_, _, _) =>
      RenamedLet(m1, m2, lx, calls, jumps, actuals, e, e', env, env', vars, js, js', joins, ws, formals, r);
    case Match(_, _) =>
      RenamedMatch(m1, m2, lx, calls, jumps, actuals, e, e', env, env', vars, js, js', joins, ws, formals, r);
    case Call(_, _) =>
      RenamedCall(m1, m2, lx, calls, jumps, actuals, e, e', env, env', vars, js, js', joins, ws, formals, r);
    case Prim(_, _) =>
      RenamedPrim(m1, m2, lx, calls, jumps, actuals, e, e', env, env', vars, js, js', joins, ws, formals, r);
    case Jmp(_, _) =>
      RenamedJump(m1, m2, lx, calls, jumps, actuals, e, e', env, env', vars, js, js', joins, ws, formals, r);
    case _ =>
      RenamedLeaf(m1, m2, lx, calls, jumps, actuals, e, e', env, env', vars, js, js', joins, ws, formals, r);
  }

  lemma RenamedLeaf(
    m1: Machine, m2: Machine, lx: Lexicon, calls: nat, jumps: nat, actuals: seq<Value>,
    e: Expr, e': Expr, env: Env, env': Env, vars: map<string, string>,
    js: Joins, js': Joins, joins: map<string, string>, ws: Scopes, formals: seq<string>, r: Rules)
    requires e.Lit? || e.Var? || e.Param? || e.Unreachable? || e.Jp?
    requires NormalizedMachine(m1, m2, lx)
    requires Renamed(e, e', vars, joins, formals, r)
    requires Relates(env, env', vars, js, js', joins, ws, formals, actuals, r)
    ensures Eval(m1, calls, jumps, actuals, e, env, js) == Eval(m2, calls, jumps, actuals, e', env', js')
    decreases calls, jumps, e, 0
  {
  }

  lemma {:induction false} RenamedPrim(
    m1: Machine, m2: Machine, lx: Lexicon, calls: nat, jumps: nat, actuals: seq<Value>,
    e: Expr, e': Expr, env: Env, env': Env, vars: map<string, string>,
    js: Joins, js': Joins, joins: map<string, string>, ws: Scopes, formals: seq<string>, r: Rules)
    requires e.Prim?
    requires NormalizedMachine(m1, m2, lx)
    requires Renamed(e, e', vars, joins, formals, r)
    requires Relates(env, env', vars, js, js', joins, ws, formals, actuals, r)
    ensures Eval(m1, calls, jumps, actuals, e, env, js) == Eval(m2, calls, jumps, actuals, e', env', js')
    decreases calls, jumps, e, 0
  {
    RenamedEvalAll(m1, m2, lx, calls, jumps, actuals, e.args, e'.args, env, env', vars, js, js', joins, ws, formals, r);
  }

  lemma {:induction false} RenamedCall(
    m1: Machine, m2: Machine, lx: Lexicon, calls: nat, jumps: nat, actuals: seq<Value>,
    e: Expr, e': Expr, env: Env, env': Env, vars: map<string, string>,
    js: Joins, js': Joins, joins: map<string, string>, ws: Scopes, formals: seq<string>, r: Rules)
    requires e.Call?
    requires NormalizedMachine(m1, m2, lx)
    requires Renamed(e, e', vars, joins, formals, r)
    requires Relates(env, env', vars, js, js', joins, ws, formals, actuals, r)
    ensures Eval(m1, calls, jumps, actuals, e, env, js) == Eval(m2, calls, jumps, actuals, e', env', js')
    decreases calls, jumps, e, 0
  {
    RenamedEvalAll(m1, m2, lx, calls, jumps, actuals, e.args, e'.args, env, env', vars, js, js', joins, ws, formals, r);
    var os := EvalAll(m1, calls, jumps, actuals, e.args, env, js);
    if os.Oks? && calls > 0 {
      RenamedRun(m1, m2, lx, calls - 1, e.callee, os.values);
    }
    CallAlike(m1, m2, calls, jumps, actuals, e, e', env, env', js, js');
  }

  /** Equal arguments and equal callees make equal calls. */
  lemma CallAlike(m1: Machine, m2: Machine, calls: nat, jumps: nat, actuals: seq<Value>, e: Expr, e': Expr,
                  env: Env, env': Env, js: Joins, js': Joins)
    requires e.Call? && e'.Call? && e.callee == e'.callee
    requires EvalAll(m1, calls, jumps, actuals, e.args, env, js)
        == EvalAll(m2, calls, jumps, actuals, e'.args, env', js')
    requires var os := EvalAll(m1, calls, jumps, actuals, e.args, env, js);
      os.Oks? && calls > 0 ==> Run(m1, calls - 1, e.callee, os.values) == Run(m2, calls - 1, e.callee, os.values)
    ensures Eval(m1, calls, jumps, actuals, e, env, js) == Eval(m2, calls, jumps, actuals, e', env', js')
  {}

  lemma {:induction false} RenamedIf(
    m1: Machine, m2: Machine, lx: Lexicon, calls: nat, jumps: nat, actuals: seq<Value>,
    e: Expr, e': Expr, env: Env, env': Env, vars: map<string, string>,
    js: Joins, js': Joins, joins: map<string, string>, ws: Scopes, formals: seq<string>, r: Rules)
    requires e.If?
    requires NormalizedMachine(m1, m2, lx)
    requires Renamed(e, e', vars, joins, formals, r)
    requires Relates(env, env', vars, js, js', joins, ws, formals, actuals, r)
    ensures Eval(m1, calls, jumps, actuals, e, env, js) == Eval(m2, calls, jumps, actuals, e', env', js')
    decreases calls, jumps, e, 0
  {
    RenamedEval(m1, m2, lx, calls, jumps, actuals, e.cond, e'.cond, env, env', vars, js, js', joins, ws, formals, r);
    var o := Eval(m1, calls, jumps, actuals, e.cond, env, js);
    if o.Ok? && o.value.Bool? {
      RenamedEval(m1, m2, lx, calls, jumps, actuals, if o.value.b then e.yes else e.no,
                  if o.value.b then e'.yes else e'.no, env, env', vars, js, js', joins, ws, formals, r);
    }
  }

  lemma {:induction false} RenamedMatch(
    m1: Machine, m2: Machine, lx: Lexicon, calls: nat, jumps: nat, actuals: seq<Value>,
    e: Expr, e': Expr, env: Env, env': Env, vars: map<string, string>,
    js: Joins, js': Joins, joins: map<string, string>, ws: Scopes, formals: seq<string>, r: Rules)
    requires e.Match?
    requires NormalizedMachine(m1, m2, lx)
    requires Renamed(e, e', vars, joins, formals, r)
    requires Relates(env, env', vars, js, js', joins, ws, formals, actuals, r)
    ensures Eval(m1, calls, jumps, actuals, e, env, js) == Eval(m2, calls, jumps, actuals, e', env', js')
    decreases calls, jumps, e, 0
  {
    RenamedEval(m1, m2, lx, calls, jumps, actuals, e.scrut, e'.scrut, env, env', vars, js, js', joins, ws, formals, r);
    var o := Eval(m1, calls, jumps, actuals, e.scrut, env, js);
    if o.Ok? {
      RenamedEvalAlts(m1, m2, lx, calls, jumps, actuals, e.alts, e'.alts, o.value, env, env', vars, js, js', joins, ws,
                      formals, r);
    }
  }

  lemma {:induction false} RenamedLet(
    m1: Machine, m2: Machine, lx: Lexicon, calls: nat, jumps: nat, actuals: seq<Value>,
    e: Expr, e': Expr, env: Env, env': Env, vars: map<string, string>,
    js: Joins, js': Joins, joins: map<string, string>, ws: Scopes, formals: seq<string>, r: Rules)
    requires e.Let?
    requires NormalizedMachine(m1, m2, lx)
    requires Renamed(e, e', vars, joins, formals, r)
    requires Relates(env, env', vars, js, js', joins, ws, formals, actuals, r)
    ensures Eval(m1, calls, jumps, actuals, e, env, js) == Eval(m2, calls, jumps, actuals, e', env', js')
    decreases calls, jumps, e, 0
  {
    var x, v, b := e.name, e.value, e.body;
    var x', v', b' := e'.name, e'.value, e'.body;
    RenamedEval(m1, m2, lx, calls, jumps, actuals, v, v', env, env', vars, js, js', joins, ws, formals, r);
    var o := Eval(m1, calls, jumps, actuals, v, env, js);
    if o.Ok? {
      LetRelates(e, e', o.value, env, env', vars, js, js', joins, ws, formals, actuals, r);
      RenamedEval(m1, m2, lx, calls, jumps, actuals, b, b', env[x := o.value], env'[x' := o.value], vars[x := x'],
                  Visible(v, env, js), Visible(v', env', js'), Visibly(v, v', joins),
                  Entering(v, vars, joins, ws), formals, r);
    }
  }

  lemma {:induction false} RenamedJump(
    m1: Machine, m2: Machine, lx: Lexicon, calls: nat, jumps: nat, actuals: seq<Value>,
    e: Expr, e': Expr, env: Env, env': Env, vars: map<string, string>,
    js: Joins, js': Joins, joins: map<string, string>, ws: Scopes, formals: seq<string>, r: Rules)
    requires e.Jmp?
    requires NormalizedMachine(m1, m2, lx)
    requires Renamed(e, e', vars, joins, formals, r)
    requires Relates(env, env', vars, js, js', joins, ws, formals, actuals, r)
    ensures Eval(m1, calls, jumps, actuals, e, env, js) == Eval(m2, calls, jumps, actuals, e', env', js')
    decreases calls, jumps, e, 0
  {
    RenamedEvalAll(m1, m2, lx, calls, jumps, actuals, e.args, e'.args, env, env', vars, js, js', joins, ws, formals, r);
    var os := EvalAll(m1, calls, jumps, actuals, e.args, env, js);
    var s, s' := Find(e.target, js), Find(e'.target, js');
    var inner, ws' := FindTracks(e.target, e'.target, js, js', joins, ws, formals, actuals, r);
    if os.Oks? && s.Join? && |s.params| == |os.values| && jumps > 0 {
      BindTracks(s.params, s'.params, os.values, s.env, s'.env, ws'.vars, formals, actuals, r);
      RenamedEval(m1, m2, lx, calls, jumps - 1, actuals, s.cont, s'.cont,
                  Bind(s.params, os.values, s.env), Bind(s'.params, os.values, s'.env),
                  Bind(s.params, s'.params, ws'.vars), s, s', inner, ws', formals, r);
    }
    JumpAlike(m1, m2, calls, jumps, actuals, e, e', env, env', js, js');
  }

  /** Equal arguments and continuations that evaluate alike make equal jumps. */
  lemma JumpAlike(m1: Machine, m2: Machine, calls: nat, jumps: nat, actuals: seq<Value>, e: Expr, e': Expr,
                  env: Env, env': Env, js: Joins, js': Joins)
    requires e.Jmp? && e'.Jmp?
    requires EvalAll(m1, calls, jumps, actuals, e.args, env, js)
        == EvalAll(m2, calls, jumps, actuals, e'.args, env', js')
    requires var s, s' := Find(e.target, js), Find(e'.target, js');
      (s.NoJoin? <==> s'.NoJoin?) && (s.Join? ==> |s.params| == |s'.params|)
    requires var os, s, s' := EvalAll(m1, calls, jumps, actuals, e.args, env, js), Find(e.target, js),
        Find(e'.target, js');
      os.Oks? && s.Join? && |s.params| == |os.values| && jumps > 0 ==>
        Eval(m1, calls, jumps - 1, actuals, s.cont, Bind(s.params, os.values, s.env), s)
          == Eval(m2, calls, jumps - 1, actuals, s'.cont, Bind(s'.params, os.values, s'.env), s')
    ensures Eval(m1, calls, jumps, actuals, e, env, js) == Eval(m2, calls, jumps, actuals, e', env', js')
  {}

  lemma {:induction false} RenamedEvalAll(
    m1: Machine, m2: Machine, lx: Lexicon, calls: nat, jumps: nat, actuals: seq<Value>,
    es: Exprs, es': Exprs, env: Env, env': Env, vars: map<string, string>,
    js: Joins, js': Joins, joins: map<string, string>, ws: Scopes, formals: seq<string>, r: Rules)
    requires NormalizedMachine(m1, m2, lx)
    requires RenamedAll(es, es', vars, joins, formals, r)
    requires Relates(env, env', vars, js, js', joins, ws, formals, actuals, r)
    ensures EvalAll(m1, calls, jumps, actuals, es, env, js) == EvalAll(m2, calls, jumps, actuals, es', env', js')
    decreases calls, jumps, es
  {
    match es
    case Nil =>
    case Cons(e, tail) =>
      RenamedEval(m1, m2, lx, calls, jumps, actuals, e, es'.head, env, env', vars, js, js', joins, ws, formals, r);
      RenamedEvalAll(m1, m2, lx, calls, jumps, actuals, tail, es'.tail, env, env', vars, js, js', joins, ws, formals,
                     r);
  }

  lemma {:induction false} RenamedEvalAlts(
    m1: Machine, m2: Machine, lx: Lexicon, calls: nat, jumps: nat, actuals: seq<Value>,
    alts: Alts, alts': Alts, v: Value, env: Env, env': Env, vars: map<string, string>,
    js: Joins, js': Joins, joins: map<string, string>, ws: Scopes, formals: seq<string>, r: Rules)
    requires NormalizedMachine(m1, m2, lx)
    requires RenamedAlts(alts, alts', vars, joins, formals, r)
    requires Relates(env, env', vars, js, js', joins, ws, formals, actuals, r)
    ensures EvalAlts(m1, calls, jumps, actuals, alts, v, env, js)
         == EvalAlts(m2, calls, jumps, actuals, alts', v, env', js')
    decreases calls, jumps, alts, 1
  {
    match alts
    case NoMore =>
    case Default(b) =>
      RenamedEval(m1, m2, lx, calls, jumps, actuals, b, alts'.otherwise, env, env', vars, js, js', joins, ws, formals,
                  r);
    case Alt(c, bs, b, rest) =>
      if Fields(c, |bs|, v) != [] {
        RenamedArm(m1, m2, lx, calls, jumps, actuals, alts, alts', v, env, env', vars, js, js', joins, ws, formals, r);
      } else {
        RenamedEvalAlts(m1, m2, lx, calls, jumps, actuals, rest, alts'.rest, v, env, env', vars, js, js', joins, ws,
                        formals, r);
      }
  }

  lemma {:induction false} RenamedArm(
    m1: Machine, m2: Machine, lx: Lexicon, calls: nat, jumps: nat, actuals: seq<Value>,
    alts: Alts, alts': Alts, v: Value, env: Env, env': Env, vars: map<string, string>,
    js: Joins, js': Joins, joins: map<string, string>, ws: Scopes, formals: seq<string>, r: Rules)
    requires alts.Alt? && Fields(alts.ctor, |alts.binders|, v) != []
    requires NormalizedMachine(m1, m2, lx)
    requires RenamedAlts(alts, alts', vars, joins, formals, r)
    requires Relates(env, env', vars, js, js', joins, ws, formals, actuals, r)
    ensures EvalAlts(m1, calls, jumps, actuals, alts, v, env, js)
         == EvalAlts(m2, calls, jumps, actuals, alts', v, env', js')
    decreases calls, jumps, alts, 0
  {
    var bs, bs' := alts.binders, alts'.binders;
    var fs := Fields(alts.ctor, |bs|, v)[0];
    AltRelates(bs, bs', fs, env, env', vars, js, js', joins, ws, formals, actuals, r);
    RenamedEval(m1, m2, lx, calls, jumps, actuals, alts.body, alts'.body, Bind(bs, fs, env), Bind(bs', fs, env'),
                Bind(bs, bs', vars), js, js', joins, ws, formals, r);
  }

  lemma {:induction false} RenamedRun(m1: Machine, m2: Machine, lx: Lexicon, calls: nat, f: string, vs: seq<Value>)
    requires NormalizedMachine(m1, m2, lx)
    ensures Run(m1, calls, f, vs) == Run(m2, calls, f, vs)
    decreases calls, m1.jumps + 1
  {
    if f in m1.defs {
      assert Normalizes(m1.defs[f], m2.defs[f], lx);
    }
    if f in m1.defs && |m1.defs[f].params| == |vs| {
      var d, d' := m1.defs[f], m2.defs[f];
      var r := RulesOf(d, lx);
      assert Tracks(map[], map[], map[], [], [], r);
      BindTracks(d.params, d'.params, vs, map[], map[], map[], [], [], r);
      var env' := Bind(d'.params, vs, map[]);
      forall i | 0 <= i < |vs|
        ensures d'.params[i] in env' && env'[d'.params[i]] == vs[i]
      {
        BindValue(d'.params, vs, map[], i);
      }
      RenamedEval(m1, m2, lx, calls, m1.jumps, vs, d.body, d'.body, Bind(d.params, vs, map[]), env',
                  Bind(d.params, d'.params, map[]), NoJoin, NoJoin, map[], Outermost, d'.params, r);
    }
  }

  /** Normalising every definition of a module preserves every run. */
  lemma NormalizationPreservesRuns(m1: Machine, m2: Machine, lx: Lexicon, calls: nat, f: string, vs: seq<Value>)
    requires NormalizedMachine(m1, m2, lx)
    ensures Run(m1, calls, f, vs) == Run(m2, calls, f, vs)
  {
    RenamedRun(m1, m2, lx, calls, f, vs);
  }

  // ---- what normalisation establishes ----

  function Spelled(n: Name): string {
    match n
    case V(x) => x
    case L(l) => l
  }

  ghost predicate Keyed(bound: set<Name>, keys: set<string>, lx: Lexicon) {
    forall n :: n in bound ==> lx.key(Spelled(n)) in keys
  }

  lemma DistinctByKey(xs: seq<string>, lx: Lexicon)
    requires DistinctKeys(xs, lx)
    ensures Distinct(xs)
  {
  }

  /** Distinct collision keys make every binder unique. */
  lemma {:induction false} CleanUnique(e: Expr, a: Alphabet)
    requires Clean(e, a)
    ensures Unique(e) && Keyed(Bound(e), Keys(e, a.lx), a.lx)
  {
    match e
    case Lit(_) =>
    case Var(_) =>
    case Param(_) =>
    case Unreachable =>
    case Prim(_, es) => CleanUniqueAll(es, a);
    case If(c, t, f) =>
      CleanUnique(c, a);
      CleanUnique(t, a);
      CleanUnique(f, a);
    case Let(x, v, b) =>
      CleanUnique(v, a);
      CleanUnique(b, a);
      if OwnLabel(x, v, a.lx) {
        CleanUnique(v.cont, a);
      }
    case Match(s, alts) =>
      CleanUnique(s, a);
      CleanUniqueAlts(alts, a);
    case Call(_, es) => CleanUniqueAll(es, a);
    case Jp(l, ps, c) =>
      CleanUnique(c, a);
      DistinctByKey(ps, a.lx);
    case Jmp(_, es) => CleanUniqueAll(es, a);
  }

  lemma {:induction false} CleanUniqueAll(es: Exprs, a: Alphabet)
    requires CleanAll(es, a)
    ensures UniqueAll(es) && Keyed(BoundAll(es), KeysAll(es, a.lx), a.lx)
  {
    match es
    case Nil =>
    case Cons(e, tail) =>
      CleanUnique(e, a);
      CleanUniqueAll(tail, a);
  }

  lemma {:induction false} CleanUniqueAlts(alts: Alts, a: Alphabet)
    requires CleanAlts(alts, a)
    ensures UniqueAlts(alts) && Keyed(BoundAlts(alts), KeysAlts(alts, a.lx), a.lx)
  {
    match alts
    case NoMore =>
    case Default(b) => CleanUnique(b, a);
    case Alt(_, bs, b, rest) =>
      CleanUnique(b, a);
      CleanUniqueAlts(rest, a);
      DistinctByKey(bs, a.lx);
  }

  /** Closed over the names a scope maps. */
  ghost predicate ClosedIn(free: set<Name>, vars: map<string, string>, joins: map<string, string>) {
    && (forall x :: V(x) in free ==> x in vars)
    && (forall l :: L(l) in free ==> l in joins)
  }

  /** Closed over the names a scope maps to. */
  ghost predicate ClosedOut(free: set<Name>, vars: map<string, string>, joins: map<string, string>,
                            formals: seq<string>)
  {
    && (forall x :: V(x) in free ==> x in formals || x in vars.Values)
    && (forall l :: L(l) in free ==> l in joins.Values)
  }

  lemma {:induction false} BindValues(xs: seq<string>, ys: seq<string>, vars: map<string, string>)
    requires |xs| == |ys|
    ensures forall y :: y in Bind(xs, ys, vars).Values ==> y in ys || y in vars.Values
    decreases |xs|
  {
    if xs != [] {
      BindValues(xs[1..], ys[1..], vars[xs[0] := ys[0]]);
    }
  }

  lemma {:induction false} RenamedClosed(e: Expr, e': Expr, vars: map<string, string>, joins: map<string, string>,
                                         formals: seq<string>, r: Rules)
    requires Renamed(e, e', vars, joins, formals, r) && ClosedIn(Free(e), vars, joins)
    ensures ClosedOut(Free(e'), vars, joins, formals)
    decreases e, 1
  {
    match e
    case Lit(_) =>
    case Var(x) => assert V(x) in Free(e);
    case Param(_) =>
    case Unreachable =>
    case Prim(_, es) => RenamedClosedAll(es, e'.args, vars, joins, formals, r);
    case If(c, t, f) =>
      RenamedClosed(c, e'.cond, vars, joins, formals, r);
      RenamedClosed(t, e'.yes, vars, joins, formals, r);
      RenamedClosed(f, e'.no, vars, joins, formals, r);
    case Let(_, _, _) => RenamedClosedLet(e, e', vars, joins, formals, r);
    case Match(s, alts) =>
      RenamedClosed(s, e'.scrut, vars, joins, formals, r);
      RenamedClosedAlts(alts, e'.alts, vars, joins, formals, r);
    case Call(_, es) => RenamedClosedAll(es, e'.args, vars, joins, formals, r);
    case Jp(_, _, _) => RenamedClosedJoin(e, e', vars, joins, formals, r);
    case Jmp(l, es) =>
      assert L(l) in Free(e);
      RenamedClosedAll(es, e'.args, vars, joins, formals, r);
  }

  lemma {:induction false} RenamedClosedLet(e: Expr, e': Expr, vars: map<string, string>, joins: map<string, string>,
                                            formals: seq<string>, r: Rules)
    requires e.Let? && Renamed(e, e', vars, joins, formals, r) && ClosedIn(Free(e), vars, joins)
    ensures ClosedOut(Free(e'), vars, joins, formals)
    decreases e, 0
  {
    RenamedClosed(e.value, e'.value, vars, joins, formals, r);
    RenamedClosed(e.body, e'.body, vars[e.name := e'.name], Visibly(e.value, e'.value, joins), formals, r);
  }

  lemma {:induction false} RenamedClosedJoin(e: Expr, e': Expr, vars: map<string, string>, joins: map<string, string>,
                                             formals: seq<string>, r: Rules)
    requires e.Jp? && Renamed(e, e', vars, joins, formals, r) && ClosedIn(Free(e), vars, joins)
    ensures ClosedOut(Free(e'), vars, joins, formals)
    decreases e, 0
  {
    BindKeys(e.params, e'.params, vars);
    BindValues(e.params, e'.params, vars);
    RenamedClosed(e.cont, e'.cont, Bind(e.params, e'.params, vars), joins[e.target := e'.target], formals, r);
  }

  lemma {:induction false} RenamedClosedAll(es: Exprs, es': Exprs, vars: map<string, string>,
                                            joins: map<string, string>, formals: seq<string>, r: Rules)
    requires RenamedAll(es, es', vars, joins, formals, r) && ClosedIn(FreeAll(es), vars, joins)
    ensures ClosedOut(FreeAll(es'), vars, joins, formals)
    decreases es
  {
    match es
    case Nil =>
    case Cons(e, tail) =>
      RenamedClosed(e, es'.head, vars, joins, formals, r);
      RenamedClosedAll(tail, es'.tail, vars, joins, formals, r);
  }

  lemma {:induction false} RenamedClosedAlts(alts: Alts, alts': Alts, vars: map<string, string>,
                                             joins: map<string, string>, formals: seq<string>, r: Rules)
    requires RenamedAlts(alts, alts', vars, joins, formals, r) && ClosedIn(FreeAlts(alts), vars, joins)
    ensures ClosedOut(FreeAlts(alts'), vars, joins, formals)
    decreases alts
  {
    match alts
    case NoMore =>
    case Default(b) => RenamedClosed(b, alts'.otherwise, vars, joins, formals, r);
    case Alt(_, bs, b, rest) =>
      BindKeys(bs, alts'.binders, vars);
      BindValues(bs, alts'.binders, vars);
      RenamedClosed(b, alts'.body, Bind(bs, alts'.binders, vars), joins, formals, r);
      RenamedClosedAlts(rest, alts'.rest, vars, joins, formals, r);
  }

  lemma {:induction false} RenamedJoinFree(e: Expr, e': Expr, vars: map<string, string>, joins: map<string, string>,
                                           formals: seq<string>, r: Rules)
    requires Renamed(e, e', vars, joins, formals, r) && JoinFree(e)
    ensures JoinFree(e')
    decreases e
  {
    match e
    case Lit(_) =>
    case Var(_) =>
    case Param(_) =>
    case Unreachable =>
    case Prim(_, es) => RenamedJoinFreeAll(es, e'.args, vars, joins, formals, r);
    case If(c, t, f) =>
      RenamedJoinFree(c, e'.cond, vars, joins, formals, r);
      RenamedJoinFree(t, e'.yes, vars, joins, formals, r);
      RenamedJoinFree(f, e'.no, vars, joins, formals, r);
    case Let(x, v, b) =>
      RenamedJoinFree(v, e'.value, vars, joins, formals, r);
      RenamedJoinFree(b, e'.body, vars[x := e'.name], Visibly(v, e'.value, joins), formals, r);
    case Match(s, alts) =>
      RenamedJoinFree(s, e'.scrut, vars, joins, formals, r);
      RenamedJoinFreeAlts(alts, e'.alts, vars, joins, formals, r);
    case Call(_, es) => RenamedJoinFreeAll(es, e'.args, vars, joins, formals, r);
  }

  lemma {:induction false} RenamedJoinFreeAll(es: Exprs, es': Exprs, vars: map<string, string>,
                                              joins: map<string, string>, formals: seq<string>, r: Rules)
    requires RenamedAll(es, es', vars, joins, formals, r) && JoinFreeAll(es)
    ensures JoinFreeAll(es')
    decreases es
  {
    match es
    case Nil =>
    case Cons(e, tail) =>
      RenamedJoinFree(e, es'.head, vars, joins, formals, r);
      RenamedJoinFreeAll(tail, es'.tail, vars, joins, formals, r);
  }

  lemma {:induction false} RenamedJoinFreeAlts(alts: Alts, alts': Alts, vars: map<string, string>,
                                               joins: map<string, string>, formals: seq<string>, r: Rules)
    requires RenamedAlts(alts, alts', vars, joins, formals, r) && JoinFreeAlts(alts)
    ensures JoinFreeAlts(alts')
    decreases alts
  {
    match alts
    case NoMore =>
    case Default(b) => RenamedJoinFree(b, alts'.otherwise, vars, joins, formals, r);
    case Alt(_, bs, b, rest) =>
      RenamedJoinFree(b, alts'.body, Bind(bs, alts'.binders, vars), joins, formals, r);
      RenamedJoinFreeAlts(rest, alts'.rest, vars, joins, formals, r);
  }

  /** Closed over its formals, with no jump out of its joins' scopes. */
  ghost predicate Closed(d: Definition) {
    && (forall x :: V(x) in Free(d.body) ==> x in d.params)
    && (forall l :: L(l) !in Free(d.body))
  }

  /** No name is bound twice in a hygienic definition, formals included. */
  lemma HygienicIsUnique(d: Definition, lx: Lexicon)
    requires Hygienic(d, lx)
    ensures Unique(d.body) && Distinct(d.params)
    ensures forall x :: x in d.params ==> V(x) !in Bound(d.body)
  {
    CleanUnique(d.body, AlphabetOf(d, lx));
    DistinctByKey(d.params, lx);
    forall x | x in d.params
      ensures V(x) !in Bound(d.body)
    {
      assert lx.key(x) in KeysOf(d.params, lx);
    }
  }

  /** Normalisation keeps a definition closed. */
  lemma NormalizedIsClosed(d: Definition, d': Definition, lx: Lexicon)
    requires Normalizes(d, d', lx) && Closed(d)
    ensures Closed(d')
  {
    var vars := Bind(d.params, d'.params, map[]);
    BindKeys(d.params, d'.params, map[]);
    BindValues(d.params, d'.params, map[]);
    RenamedClosed(d.body, d'.body, vars, map[], d'.params, RulesOf(d, lx));
  }
}
