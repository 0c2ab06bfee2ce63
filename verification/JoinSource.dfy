/** The condition on dead joins, read off the source.

    `DeadJoins.TameBody` speaks of the normalised body, where a label is dead when no jump in
    the whole body names it.  `Meek` asks lexically, of the definition as it was written, and
    `SourceTame` shows that both say the same.
 */
module JoinSource {
  import opened Ir
  import opened Semantics
  import opened Naming
  import opened DeadJoins
  import opened JoinExpansion
  import NamingMeaning

  /** Literals, variables, formals by position and the construction of values. */
  predicate Plain(e: Expr, n: nat) {
    match e
    case Lit(_) => true
    case Var(_) => true
    case Param(i) => i < n
    case Prim(op, es) => op.Ctor? && !(op.name == "List.cons" && Len(es) == 2) && PlainAll(es, n)
    case Let(_, v, b) => Plain(v, n) && Plain(b, n)
    case _ => false
  }

  predicate PlainAll(es: Exprs, n: nat) {
    match es
    case Nil => true
    case Cons(e, tail) => Plain(e, n) && PlainAll(tail, n)
  }

  /** A jump in the scope of the declaration, or in its own continuation. */
  predicate Jumped(j: Expr, scope: Expr)
    requires j.Jp?
  {
    L(j.target) in Free(scope) || L(j.target) in Free(j.cont)
  }

  predicate Mild(c: Expr, ps: seq<string>, n: nat, strict: bool) {
    Quiet(c) && (strict ==> Plain(c, n)) && Vars(ps) !! Free(c)
  }

  /** Every join that nobody jumps to is bound by a let that ignores it, and is harmless; `n`
      formals may be referred to by position. */
  predicate Meek(e: Expr, n: nat, strict: bool) {
    match e
    case Lit(_) => true
    case Var(_) => true
    case Param(_) => true
    case Prim(_, es) => MeekAll(es, n, strict)
    case If(c, t, f) => Meek(c, n, strict) && Meek(t, n, strict) && Meek(f, n, strict)
    case Let(x, v, b) =>
      && Meek(b, n, strict)
      && if !v.Jp? then Meek(v, n, strict)
         else if Jumped(v, b) then Meek(v.cont, n, strict)
         else V(x) !in Free(b) && Mild(v.cont, v.params, n, strict)
    case Match(s, alts) => Meek(s, n, strict) && MeekAlts(alts, n, strict)
    case Call(_, es) => MeekAll(es, n, strict)
    case Jp(l, _, c) => L(l) in Free(c) && Meek(c, n, strict)
    case Jmp(_, es) => MeekAll(es, n, strict)
    case Unreachable => true
  }

  predicate MeekAll(es: Exprs, n: nat, strict: bool) {
    match es
    case Nil => true
    case Cons(e, tail) => Meek(e, n, strict) && MeekAll(tail, n, strict)
  }

  predicate MeekAlts(alts: Alts, n: nat, strict: bool) {
    match alts
    case NoMore => true
    case Default(b) => Meek(b, n, strict)
    case Alt(_, _, b, rest) => Meek(b, n, strict) && MeekAlts(rest, n, strict)
  }

  // ---- renaming keeps free names ----

  /** `name` is renamed to `name'`. */
  ghost predicate Maps(name: Name, name': Name, vars: map<string, string>, joins: map<string, string>) {
    match name
    case V(x) => x in vars && name' == V(vars[x])
    case L(l) => l in joins && name' == L(joins[l])
  }

  /** Binding a group that does not bind the name. */
  lemma MapsBind(name: Name, name': Name, vars: map<string, string>, joins: map<string, string>,
                 xs: seq<string>, xs': seq<string>, formals: seq<string>, r: Rules)
    requires Maps(name, name', vars, joins) && StandAll(xs, xs', vars, formals, r) && name !in Vars(xs)
    ensures Maps(name, name', Bind(xs, xs', vars), joins) && name' !in Vars(xs')
  {
    BindKeys(xs, xs', vars);
    forall y | y in xs'
      ensures V(y) != name'
    {
      var i :| 0 <= i < |xs'| && xs'[i] == y;
      assert Stands(xs[i], xs'[i], vars, formals, r);
    }
  }

  lemma {:induction false} NameKept(e: Expr, e': Expr, vars: map<string, string>, joins: map<string, string>,
                                    formals: seq<string>, r: Rules, name: Name, name': Name)
    requires Renamed(e, e', vars, joins, formals, r) && Maps(name, name', vars, joins) && name in Free(e)
    ensures name' in Free(e')
    decreases e, 1
  {
    match e
    case Var(_) =>
    case Prim(_, es) => NameKeptAll(es, e'.args, vars, joins, formals, r, name, name');
    case If(c, t, f) =>
      if name in Free(c) { NameKept(c, e'.cond, vars, joins, formals, r, name, name'); }
      if name in Free(t) { NameKept(t, e'.yes, vars, joins, formals, r, name, name'); }
      if name in Free(f) { NameKept(f, e'.no, vars, joins, formals, r, name, name'); }
    case Let(_, _, _) => NameKeptLet(e, e', vars, joins, formals, r, name, name');
    case Match(s, alts) =>
      if name in Free(s) {
        NameKept(s, e'.scrut, vars, joins, formals, r, name, name');
      } else {
        NameKeptAlts(alts, e'.alts, vars, joins, formals, r, name, name');
      }
    case Call(_, es) => NameKeptAll(es, e'.args, vars, joins, formals, r, name, name');
    case Jp(l, ps, c) =>
      MapsBind(name, name', vars, joins, ps, e'.params, formals, r);
      NameKept(c, e'.cont, Bind(ps, e'.params, vars), joins[l := e'.target], formals, r, name, name');
    case Jmp(_, es) =>
      if name in FreeAll(es) {
        NameKeptAll(es, e'.args, vars, joins, formals, r, name, name');
      }
  }

  lemma {:induction false} NameKeptLet(e: Expr, e': Expr, vars: map<string, string>, joins: map<string, string>,
                                       formals: seq<string>, r: Rules, name: Name, name': Name)
    requires e.Let? && Renamed(e, e', vars, joins, formals, r) && Maps(name, name', vars, joins) && name in Free(e)
    ensures name' in Free(e')
    decreases e, 0
  {
    var Let(x, v, b) := e;
    if name in Free(v) {
      NameKept(v, e'.value, vars, joins, formals, r, name, name');
    } else {
      NameKept(b, e'.body, vars[x := e'.name], Visibly(v, e'.value, joins), formals, r, name, name');
    }
  }

  lemma {:induction false} NameKeptAll(es: Exprs, es': Exprs, vars: map<string, string>, joins: map<string, string>,
                                       formals: seq<string>, r: Rules, name: Name, name': Name)
    requires RenamedAll(es, es', vars, joins, formals, r) && Maps(name, name', vars, joins) && name in FreeAll(es)
    ensures name' in FreeAll(es')
    decreases es
  {
    if name in Free(es.head) {
      NameKept(es.head, es'.head, vars, joins, formals, r, name, name');
    } else {
      NameKeptAll(es.tail, es'.tail, vars, joins, formals, r, name, name');
    }
  }

  lemma {:induction false} NameKeptAlts(alts: Alts, alts': Alts, vars: map<string, string>, joins: map<string, string>,
                                        formals: seq<string>, r: Rules, name: Name, name': Name)
    requires RenamedAlts(alts, alts', vars, joins, formals, r) && Maps(name, name', vars, joins)
        && name in FreeAlts(alts)
    ensures name' in FreeAlts(alts')
    decreases alts
  {
    match alts
    case Default(b) => NameKept(b, alts'.otherwise, vars, joins, formals, r, name, name');
    case Alt(_, bs, b, rest) =>
      if name in FreeAlts(rest) {
        NameKeptAlts(rest, alts'.rest, vars, joins, formals, r, name, name');
      } else {
        MapsBind(name, name', vars, joins, bs, alts'.binders, formals, r);
        NameKept(b, alts'.body, Bind(bs, alts'.binders, vars), joins, formals, r, name, name');
      }
  }

  /** Nothing that is renamed to `name'` is free. */
  ghost predicate Absent(name': Name, free: set<Name>, vars: map<string, string>, joins: map<string, string>,
                         formals: seq<string>, r: Rules)
  {
    match name'
    case V(x') =>
      && x' !in formals && (x' in vars || Unmentioned(x', r))
      && (forall y :: y in vars && vars[y] == x' ==> V(y) !in free)
    case L(l') =>
      && (l' in joins || Unmentioned(l', r))
      && (forall y :: y in joins && joins[y] == l' ==> L(y) !in free)
  }

  lemma AbsentBind(name': Name, free: set<Name>, vars: map<string, string>, joins: map<string, string>,
                   formals: seq<string>, r: Rules, xs: seq<string>, xs': seq<string>)
    requires Absent(name', free - Vars(xs), vars, joins, formals, r) && |xs| == |xs'| && name' !in Vars(xs')
    ensures Absent(name', free, Bind(xs, xs', vars), joins, formals, r)
  {
    BindKeys(xs, xs', vars);
    if name'.V? {
      forall y | y in Bind(xs, xs', vars) && Bind(xs, xs', vars)[y] == name'.name
        ensures V(y) !in free
      {
        if y in xs {
          BoundTo(xs, xs', vars, y);
        }
      }
    }
  }

  lemma {:induction false} BoundTo(xs: seq<string>, xs': seq<string>, vars: map<string, string>, y: string)
    requires |xs| == |xs'| && y in xs
    ensures y in Bind(xs, xs', vars) && Bind(xs, xs', vars)[y] in xs'
  {
    if y in xs[1..] {
      BoundTo(xs[1..], xs'[1..], vars[xs[0] := xs'[0]], y);
    } else {
      BindKeys(xs[1..], xs'[1..], vars[xs[0] := xs'[0]]);
    }
  }

  lemma {:induction false} NameGone(e: Expr, e': Expr, vars: map<string, string>, joins: map<string, string>,
                                    formals: seq<string>, r: Rules, name': Name)
    requires Renamed(e, e', vars, joins, formals, r) && Absent(name', Free(e), vars, joins, formals, r)
    ensures name' !in Free(e')
    decreases e, 1
  {
    match e
    case Lit(_) =>
    case Var(_) =>
    case Param(_) =>
    case Unreachable =>
    case Prim(_, es) => NameGoneAll(es, e'.args, vars, joins, formals, r, name');
    case If(c, t, f) =>
      NameGone(c, e'.cond, vars, joins, formals, r, name');
      NameGone(t, e'.yes, vars, joins, formals, r, name');
      NameGone(f, e'.no, vars, joins, formals, r, name');
    case Let(_, _, _) => NameGoneLet(e, e', vars, joins, formals, r, name');
    case Match(s, alts) =>
      NameGone(s, e'.scrut, vars, joins, formals, r, name');
      NameGoneAlts(alts, e'.alts, vars, joins, formals, r, name');
    case Call(_, es) => NameGoneAll(es, e'.args, vars, joins, formals, r, name');
    case Jp(_, _, _) => NameGoneJoin(e, e', vars, joins, formals, r, name');
    case Jmp(_, es) => NameGoneAll(es, e'.args, vars, joins, formals, r, name');
  }

  lemma {:induction false} NameGoneLet(e: Expr, e': Expr, vars: map<string, string>, joins: map<string, string>,
                                       formals: seq<string>, r: Rules, name': Name)
    requires e.Let? && Renamed(e, e', vars, joins, formals, r) && Absent(name', Free(e), vars, joins, formals, r)
    ensures name' !in Free(e')
    decreases e, 0
  {
    var Let(x, v, b) := e;
    NameGone(v, e'.value, vars, joins, formals, r, name');
    if name' != V(e'.name) && name' !in Declared(e'.value) {
      NameGone(b, e'.body, vars[x := e'.name], Visibly(v, e'.value, joins), formals, r, name');
    }
  }

  lemma {:induction false} NameGoneJoin(e: Expr, e': Expr, vars: map<string, string>, joins: map<string, string>,
                                        formals: seq<string>, r: Rules, name': Name)
    requires e.Jp? && Renamed(e, e', vars, joins, formals, r) && Absent(name', Free(e), vars, joins, formals, r)
    ensures name' !in Free(e')
    decreases e, 0
  {
    var Jp(l, ps, c) := e;
    if name' !in Vars(e'.params) && name' != L(e'.target) {
      AbsentBind(name', Free(c) - {L(l)}, vars, joins, formals, r, ps, e'.params);
      NameGone(c, e'.cont, Bind(ps, e'.params, vars), joins[l := e'.target], formals, r, name');
    }
  }

  lemma {:induction false} NameGoneAll(es: Exprs, es': Exprs, vars: map<string, string>, joins: map<string, string>,
                                       formals: seq<string>, r: Rules, name': Name)
    requires RenamedAll(es, es', vars, joins, formals, r) && Absent(name', FreeAll(es), vars, joins, formals, r)
    ensures name' !in FreeAll(es')
    decreases es
  {
    match es
    case Nil =>
    case Cons(e, tail) =>
      NameGone(e, es'.head, vars, joins, formals, r, name');
      NameGoneAll(tail, es'.tail, vars, joins, formals, r, name');
  }

  lemma {:induction false} NameGoneAlts(alts: Alts, alts': Alts, vars: map<string, string>, joins: map<string, string>,
                                        formals: seq<string>, r: Rules, name': Name)
    requires RenamedAlts(alts, alts', vars, joins, formals, r) && Absent(name', FreeAlts(alts), vars, joins, formals, r)
    ensures name' !in FreeAlts(alts')
    decreases alts
  {
    match alts
    case NoMore =>
    case Default(b) => NameGone(b, alts'.otherwise, vars, joins, formals, r, name');
    case Alt(_, bs, b, rest) =>
      if name' !in Vars(alts'.binders) {
        AbsentBind(name', Free(b), vars, joins, formals, r, bs, alts'.binders);
        NameGone(b, alts'.body, Bind(bs, alts'.binders, vars), joins, formals, r, name');
      }
      NameGoneAlts(rest, alts'.rest, vars, joins, formals, r, name');
  }

  // ---- renaming keeps the condition ----

  lemma {:induction false} RenamedQuiet(e: Expr, e': Expr, vars: map<string, string>, joins: map<string, string>,
                                        formals: seq<string>, r: Rules)
    requires Renamed(e, e', vars, joins, formals, r)
    ensures Quiet(e') <==> Quiet(e)
    decreases e
  {
    match e
    case Lit(_) =>
    case Var(_) =>
    case Param(_) =>
    case Unreachable =>
    case Jp(_, _, _) =>
    case Jmp(_, _) =>
    case Call(_, _) =>
    case Prim(_, es) => RenamedQuietAll(es, e'.args, vars, joins, formals, r);
    case If(c, t, f) =>
      RenamedQuiet(c, e'.cond, vars, joins, formals, r);
      RenamedQuiet(t, e'.yes, vars, joins, formals, r);
      RenamedQuiet(f, e'.no, vars, joins, formals, r);
    case Let(x, v, b) =>
      RenamedQuiet(v, e'.value, vars, joins, formals, r);
      RenamedQuiet(b, e'.body, vars[x := e'.name], Visibly(v, e'.value, joins), formals, r);
    case Match(s, alts) =>
      RenamedQuiet(s, e'.scrut, vars, joins, formals, r);
      RenamedQuietAlts(alts, e'.alts, vars, joins, formals, r);
  }

  lemma {:induction false} RenamedQuietAll(es: Exprs, es': Exprs, vars: map<string, string>, joins: map<string, string>,
                                           formals: seq<string>, r: Rules)
    requires RenamedAll(es, es', vars, joins, formals, r)
    ensures (QuietAll(es') <==> QuietAll(es)) && Len(es') == Len(es)
    decreases es
  {
    match es
    case Nil =>
    case Cons(e, tail) =>
      RenamedQuiet(e, es'.head, vars, joins, formals, r);
      RenamedQuietAll(tail, es'.tail, vars, joins, formals, r);
  }

  lemma {:induction false} RenamedQuietAlts(alts: Alts, alts': Alts, vars: map<string, string>,
                                            joins: map<string, string>, formals: seq<string>, r: Rules)
    requires RenamedAlts(alts, alts', vars, joins, formals, r)
    ensures QuietAlts(alts') <==> QuietAlts(alts)
    decreases alts
  {
    match alts
    case NoMore =>
    case Default(b) => RenamedQuiet(b, alts'.otherwise, vars, joins, formals, r);
    case Alt(_, bs, b, rest) =>
      RenamedQuiet(b, alts'.body, Bind(bs, alts'.binders, vars), joins, formals, r);
      RenamedQuietAlts(rest, alts'.rest, vars, joins, formals, r);
  }

  lemma {:induction false} RenamedPlain(e: Expr, e': Expr, vars: map<string, string>, joins: map<string, string>,
                                        formals: seq<string>, r: Rules)
    requires Renamed(e, e', vars, joins, formals, r)
    ensures Plain(e', |formals|) <==> Plain(e, |formals|)
    decreases e
  {
    match e
    case Prim(_, es) =>
      RenamedQuietAll(es, e'.args, vars, joins, formals, r);
      RenamedPlainAll(es, e'.args, vars, joins, formals, r);
    case Let(x, v, b) =>
      RenamedPlain(v, e'.value, vars, joins, formals, r);
      RenamedPlain(b, e'.body, vars[x := e'.name], Visibly(v, e'.value, joins), formals, r);
    case _ =>
  }

  lemma {:induction false} RenamedPlainAll(es: Exprs, es': Exprs, vars: map<string, string>, joins: map<string, string>,
                                           formals: seq<string>, r: Rules)
    requires RenamedAll(es, es', vars, joins, formals, r)
    ensures PlainAll(es', |formals|) <==> PlainAll(es, |formals|)
    decreases es
  {
    match es
    case Nil =>
    case Cons(e, tail) =>
      RenamedPlain(e, es'.head, vars, joins, formals, r);
      RenamedPlainAll(tail, es'.tail, vars, joins, formals, r);
  }

  /** A binder is free in its scope exactly when its renaming is. */
  lemma BinderFree(e: Expr, e': Expr, vars: map<string, string>, joins: map<string, string>, formals: seq<string>,
                   r: Rules, name: Name, name': Name)
    requires Renamed(e, e', vars, joins, formals, r) && Maps(name, name', vars, joins)
    requires Absent(name', Free(e) - {name}, vars, joins, formals, r)
    ensures name in Free(e) <==> name' in Free(e')
  {
    if name in Free(e) {
      NameKept(e, e', vars, joins, formals, r, name, name');
    } else {
      assert Free(e) - {name} == Free(e);
      NameGone(e, e', vars, joins, formals, r, name');
    }
  }

  lemma LabelFree(e: Expr, e': Expr, vars: map<string, string>, joins: map<string, string>, formals: seq<string>,
                  r: Rules, l: string, l': string)
    requires Stands(l, l', joins, [], r) && Renamed(e, e', vars, joins[l := l'], formals, r)
    ensures L(l) in Free(e) <==> L(l') in Free(e')
  {
    BinderFree(e, e', vars, joins[l := l'], formals, r, L(l), L(l'));
  }

  lemma VarFree(e: Expr, e': Expr, vars: map<string, string>, joins: map<string, string>, formals: seq<string>,
                r: Rules, x: string, x': string)
    requires Stands(x, x', vars, formals, r) && Renamed(e, e', vars[x := x'], joins, formals, r)
    ensures V(x) in Free(e) <==> V(x') in Free(e')
  {
    BinderFree(e, e', vars[x := x'], joins, formals, r, V(x), V(x'));
  }

  lemma ParamFree(e: Expr, e': Expr, vars: map<string, string>, joins: map<string, string>, formals: seq<string>,
                  r: Rules, ps: seq<string>, ps': seq<string>, i: nat)
    requires StandAll(ps, ps', vars, formals, r) && Renamed(e, e', Bind(ps, ps', vars), joins, formals, r) && i < |ps|
    ensures V(ps[i]) in Free(e) <==> V(ps'[i]) in Free(e')
  {
    var inner := Bind(ps, ps', vars);
    BindKeys(ps, ps', vars);
    BindValue(ps, ps', vars, i);
    assert Stands(ps[i], ps'[i], vars, formals, r);
    forall y | y in inner && inner[y] == ps'[i]
      ensures y == ps[i]
    {
      if y in ps {
        var k :| 0 <= k < |ps| && ps[k] == y;
        BindValue(ps, ps', vars, k);
      }
    }
    BinderFree(e, e', inner, joins, formals, r, V(ps[i]), V(ps'[i]));
  }

  lemma ParamsFree(e: Expr, e': Expr, vars: map<string, string>, joins: map<string, string>, formals: seq<string>,
                   r: Rules, ps: seq<string>, ps': seq<string>)
    requires StandAll(ps, ps', vars, formals, r) && Renamed(e, e', Bind(ps, ps', vars), joins, formals, r)
    ensures Vars(ps') !! Free(e') <==> Vars(ps) !! Free(e)
  {
    forall i | 0 <= i < |ps|
      ensures V(ps[i]) in Free(e) <==> V(ps'[i]) in Free(e')
    {
      ParamFree(e, e', vars, joins, formals, r, ps, ps', i);
    }
    if Vars(ps) !! Free(e) {
      forall i | 0 <= i < |ps'|
        ensures V(ps'[i]) !in Free(e')
      {
        assert V(ps[i]) in Vars(ps);
      }
    } else {
      var name :| name in Vars(ps) && name in Free(e);
      var i :| 0 <= i < |ps| && ps[i] == name.name;
      assert V(ps'[i]) in Vars(ps');
    }
  }

  lemma {:induction false} RenamedMeek(e: Expr, e': Expr, vars: map<string, string>, joins: map<string, string>,
                                       formals: seq<string>, r: Rules, strict: bool)
    requires Renamed(e, e', vars, joins, formals, r)
    ensures Meek(e', |formals|, strict) <==> Meek(e, |formals|, strict)
    decreases e, 1
  {
    match e
    case Lit(_) =>
    case Var(_) =>
    case Param(_) =>
    case Unreachable =>
    case Prim(_, es) => RenamedMeekAll(es, e'.args, vars, joins, formals, r, strict);
    case If(c, t, f) =>
      RenamedMeek(c, e'.cond, vars, joins, formals, r, strict);
      RenamedMeek(t, e'.yes, vars, joins, formals, r, strict);
      RenamedMeek(f, e'.no, vars, joins, formals, r, strict);
    case Let(_, _, _) => RenamedMeekLet(e, e', vars, joins, formals, r, strict);
    case Match(s, alts) =>
      RenamedMeek(s, e'.scrut, vars, joins, formals, r, strict);
      RenamedMeekAlts(alts, e'.alts, vars, joins, formals, r, strict);
    case Call(_, es) => RenamedMeekAll(es, e'.args, vars, joins, formals, r, strict);
    case Jp(l, ps, c) =>
      var inner := Bind(ps, e'.params, vars);
      LabelFree(c, e'.cont, inner, joins, formals, r, l, e'.target);
      RenamedMeek(c, e'.cont, inner, joins[l := e'.target], formals, r, strict);
    case Jmp(_, es) => RenamedMeekAll(es, e'.args, vars, joins, formals, r, strict);
  }

  lemma {:induction false} RenamedMeekLet(e: Expr, e': Expr, vars: map<string, string>, joins: map<string, string>,
                                          formals: seq<string>, r: Rules, strict: bool)
    requires e.Let? && Renamed(e, e', vars, joins, formals, r)
    ensures Meek(e', |formals|, strict) <==> Meek(e, |formals|, strict)
    decreases e, 0
  {
    var Let(x, v, b) := e;
    RenamedMeek(b, e'.body, vars[x := e'.name], Visibly(v, e'.value, joins), formals, r, strict);
    if !v.Jp? {
      RenamedMeek(v, e'.value, vars, joins, formals, r, strict);
    } else {
      RenamedJoin(e, e', vars, joins, formals, r, strict);
      RenamedMeek(v.cont, e'.value.cont, Bind(v.params, e'.value.params, vars), joins[v.target := e'.value.target],
                  formals, r, strict);
    }
  }

  lemma RenamedJoin(e: Expr, e': Expr, vars: map<string, string>, joins: map<string, string>,
                    formals: seq<string>, r: Rules, strict: bool)
    requires e.Let? && e.value.Jp? && Renamed(e, e', vars, joins, formals, r)
    ensures e'.value.Jp? && (Jumped(e'.value, e'.body) <==> Jumped(e.value, e.body))
    ensures V(e'.name) in Free(e'.body) <==> V(e.name) in Free(e.body)
    ensures Mild(e'.value.cont, e'.value.params, |formals|, strict)
       <==> Mild(e.value.cont, e.value.params, |formals|, strict)
  {
    var Let(x, v, b) := e;
    var v' := e'.value;
    var inner, outer := Bind(v.params, v'.params, vars), joins[v.target := v'.target];
    LabelFree(b, e'.body, vars[x := e'.name], joins, formals, r, v.target, v'.target);
    LabelFree(v.cont, v'.cont, inner, joins, formals, r, v.target, v'.target);
    VarFree(b, e'.body, vars, outer, formals, r, x, e'.name);
    RenamedQuiet(v.cont, v'.cont, inner, outer, formals, r);
    RenamedPlain(v.cont, v'.cont, inner, outer, formals, r);
    ParamsFree(v.cont, v'.cont, vars, outer, formals, r, v.params, v'.params);
  }

  lemma {:induction false} RenamedMeekAll(es: Exprs, es': Exprs, vars: map<string, string>, joins: map<string, string>,
                                          formals: seq<string>, r: Rules, strict: bool)
    requires RenamedAll(es, es', vars, joins, formals, r)
    ensures MeekAll(es', |formals|, strict) <==> MeekAll(es, |formals|, strict)
    decreases es
  {
    match es
    case Nil =>
    case Cons(e, tail) =>
      RenamedMeek(e, es'.head, vars, joins, formals, r, strict);
      RenamedMeekAll(tail, es'.tail, vars, joins, formals, r, strict);
  }

  lemma {:induction false} RenamedMeekAlts(alts: Alts, alts': Alts, vars: map<string, string>,
                                           joins: map<string, string>, formals: seq<string>, r: Rules, strict: bool)
    requires RenamedAlts(alts, alts', vars, joins, formals, r)
    ensures MeekAlts(alts', |formals|, strict) <==> MeekAlts(alts, |formals|, strict)
    decreases alts
  {
    match alts
    case NoMore =>
    case Default(b) => RenamedMeek(b, alts'.otherwise, vars, joins, formals, r, strict);
    case Alt(_, bs, b, rest) =>
      RenamedMeek(b, alts'.body, Bind(bs, alts'.binders, vars), joins, formals, r, strict);
      RenamedMeekAlts(rest, alts'.rest, vars, joins, formals, r, strict);
  }

  // ---- in a body with unique names both conditions agree ----

  /** A jump goes to a label that is free in the term or declared in it. */
  lemma {:induction false} JumpScope(e: Expr, l: string)
    ensures l in JumpsOf(e) ==> L(l) in Free(e) || L(l) in Bound(e)
    ensures L(l) in Free(e) ==> l in JumpsOf(e)
    decreases e
  {
    match e
    case Lit(_) =>
    case Var(_) =>
    case Param(_) =>
    case Unreachable =>
    case Prim(_, es) => JumpScopeAll(es, l);
    case If(c, t, f) =>
      JumpScope(c, l);
      JumpScope(t, l);
      JumpScope(f, l);
    case Let(_, v, b) =>
      JumpScope(v, l);
      JumpScope(b, l);
    case Match(s, alts) =>
      JumpScope(s, l);
      JumpScopeAlts(alts, l);
    case Call(_, es) => JumpScopeAll(es, l);
    case Jp(_, _, c) => JumpScope(c, l);
    case Jmp(_, es) => JumpScopeAll(es, l);
  }

  lemma {:induction false} JumpScopeAll(es: Exprs, l: string)
    ensures l in JumpsOfAll(es) ==> L(l) in FreeAll(es) || L(l) in BoundAll(es)
    ensures L(l) in FreeAll(es) ==> l in JumpsOfAll(es)
    decreases es
  {
    match es
    case Nil =>
    case Cons(e, tail) =>
      JumpScope(e, l);
      JumpScopeAll(tail, l);
  }

  lemma {:induction false} JumpScopeAlts(alts: Alts, l: string)
    ensures l in JumpsOfAlts(alts) ==> L(l) in FreeAlts(alts) || L(l) in BoundAlts(alts)
    ensures L(l) in FreeAlts(alts) ==> l in JumpsOfAlts(alts)
    decreases alts
  {
    match alts
    case NoMore =>
    case Default(b) => JumpScope(b, l);
    case Alt(_, _, b, rest) =>
      JumpScope(b, l);
      JumpScopeAlts(rest, l);
  }

  /** The labels a term declares are not free in it, and `live` counts its own jumps to them. */
  ghost predicate Local(free: set<Name>, bound: set<Name>, jumps: set<string>, live: set<string>) {
    forall l :: L(l) in bound ==> L(l) !in free && (l in live <==> l in jumps)
  }

  lemma {:induction false} PlainInert(e: Expr, n: nat)
    requires NoParam(e, n)
    ensures Plain(e, n) <==> Inert(e)
    decreases e
  {
    match e
    case Prim(_, es) => PlainInertAll(es, n);
    case Let(_, v, b) =>
      PlainInert(v, n);
      PlainInert(b, n);
    case _ =>
  }

  lemma {:induction false} PlainInertAll(es: Exprs, n: nat)
    requires NoParamAll(es, n)
    ensures PlainAll(es, n) <==> InertAll(es)
    decreases es
  {
    match es
    case Nil =>
    case Cons(e, tail) =>
      PlainInert(e, n);
      PlainInertAll(tail, n);
  }

  lemma {:induction false} MeekTame(e: Expr, n: nat, live: set<string>, strict: bool)
    requires Unique(e) && NoParam(e, n) && Local(Free(e), Bound(e), JumpsOf(e), live)
    ensures Tame(e, live, strict) <==> Meek(e, n, strict)
    decreases e, 1
  {
    match e
    case Lit(_) =>
    case Var(_) =>
    case Param(_) =>
    case Unreachable =>
    case Prim(_, es) => MeekTameAll(es, n, live, strict);
    case If(_, _, _) => MeekTameIf(e, n, live, strict);
    case Let(_, _, _) => MeekTameLet(e, n, live, strict);
    case Match(_, _) => MeekTameMatch(e, n, live, strict);
    case Call(_, es) => MeekTameAll(es, n, live, strict);
    case Jp(l, _, c) =>
      JumpScope(c, l);
      assert L(l) in Bound(e);
      MeekTame(c, n, live, strict);
    case Jmp(_, es) => MeekTameAll(es, n, live, strict);
  }

  lemma {:induction false} MeekTameIf(e: Expr, n: nat, live: set<string>, strict: bool)
    requires e.If? && Unique(e) && NoParam(e, n) && Local(Free(e), Bound(e), JumpsOf(e), live)
    ensures Tame(e, live, strict) <==> Meek(e, n, strict)
    decreases e, 0
  {
    forall l | L(l) in Bound(e)
      ensures L(l) in Bound(e.cond) ==> l !in JumpsOf(e.yes) && l !in JumpsOf(e.no)
      ensures L(l) in Bound(e.yes) ==> l !in JumpsOf(e.cond) && l !in JumpsOf(e.no)
      ensures L(l) in Bound(e.no) ==> l !in JumpsOf(e.cond) && l !in JumpsOf(e.yes)
    {
      JumpScope(e.cond, l);
      JumpScope(e.yes, l);
      JumpScope(e.no, l);
    }
    MeekTame(e.cond, n, live, strict);
    MeekTame(e.yes, n, live, strict);
    MeekTame(e.no, n, live, strict);
  }

  lemma {:induction false} MeekTameLet(e: Expr, n: nat, live: set<string>, strict: bool)
    requires e.Let? && Unique(e) && NoParam(e, n) && Local(Free(e), Bound(e), JumpsOf(e), live)
    ensures Tame(e, live, strict) <==> Meek(e, n, strict)
    decreases e, 0
  {
    var Let(x, v, b) := e;
    LocalLet(e, live);
    MeekTame(b, n, live, strict);
    if !v.Jp? {
      MeekTame(v, n, live, strict);
    } else {
      JumpScope(b, v.target);
      JumpScope(v.cont, v.target);
      assert v.target in live <==> Jumped(v, b);
      PlainInert(v.cont, n);
      MeekTame(v.cont, n, live, strict);
    }
  }

  lemma LocalLet(e: Expr, live: set<string>)
    requires e.Let? && Unique(e) && Local(Free(e), Bound(e), JumpsOf(e), live)
    ensures !e.value.Jp? ==> Local(Free(e.value), Bound(e.value), JumpsOf(e.value), live)
    ensures Local(Free(e.body), Bound(e.body), JumpsOf(e.body), live)
    ensures e.value.Jp? ==> Local(Free(e.value.cont), Bound(e.value.cont), JumpsOf(e.value.cont), live)
    ensures e.value.Jp? ==> (e.value.target in live <==> e.value.target in JumpsOf(e))
  {
    forall l | L(l) in Bound(e)
      ensures L(l) in Bound(e.value) && L(l) !in Declared(e.value) ==> l !in JumpsOf(e.body)
      ensures L(l) in Bound(e.body) ==> l !in JumpsOf(e.value)
    {
      JumpScope(e.value, l);
      JumpScope(e.body, l);
    }
    if e.value.Jp? {
      var Jp(target, ps, c) := e.value;
      forall l | L(l) in Bound(c)
        ensures L(l) !in Free(c) && (l in live <==> l in JumpsOf(c))
      {
        assert L(l) in Bound(e) && L(l) in Bound(e.value) && L(l) !in Declared(e.value);
        assert JumpsOf(e.value) == JumpsOf(c) && l !in JumpsOf(e.body);
        assert Free(e.value) == Free(c) - Vars(ps) - {L(target)} && L(l) !in Free(e.value);
      }
    }
  }

  lemma {:induction false} MeekTameMatch(e: Expr, n: nat, live: set<string>, strict: bool)
    requires e.Match? && Unique(e) && NoParam(e, n) && Local(Free(e), Bound(e), JumpsOf(e), live)
    ensures Tame(e, live, strict) <==> Meek(e, n, strict)
    decreases e, 0
  {
    forall l | L(l) in Bound(e)
      ensures L(l) in Bound(e.scrut) ==> l !in JumpsOfAlts(e.alts)
      ensures L(l) in BoundAlts(e.alts) ==> l !in JumpsOf(e.scrut)
    {
      JumpScope(e.scrut, l);
      JumpScopeAlts(e.alts, l);
    }
    MeekTame(e.scrut, n, live, strict);
    MeekTameAlts(e.alts, n, live, strict);
  }

  lemma {:induction false} MeekTameAll(es: Exprs, n: nat, live: set<string>, strict: bool)
    requires UniqueAll(es) && NoParamAll(es, n) && Local(FreeAll(es), BoundAll(es), JumpsOfAll(es), live)
    ensures TameAll(es, live, strict) <==> MeekAll(es, n, strict)
    decreases es
  {
    match es
    case Nil =>
    case Cons(e, tail) =>
      forall l | L(l) in BoundAll(es)
        ensures L(l) in Bound(e) ==> l !in JumpsOfAll(tail)
        ensures L(l) in BoundAll(tail) ==> l !in JumpsOf(e)
      {
        JumpScope(e, l);
        JumpScopeAll(tail, l);
      }
      MeekTame(e, n, live, strict);
      MeekTameAll(tail, n, live, strict);
  }

  lemma {:induction false} MeekTameAlts(alts: Alts, n: nat, live: set<string>, strict: bool)
    requires UniqueAlts(alts) && NoParamAlts(alts, n) && Local(FreeAlts(alts), BoundAlts(alts), JumpsOfAlts(alts), live)
    ensures TameAlts(alts, live, strict) <==> MeekAlts(alts, n, strict)
    decreases alts
  {
    match alts
    case NoMore =>
    case Default(b) => MeekTame(b, n, live, strict);
    case Alt(_, bs, b, rest) =>
      forall l | L(l) in BoundAlts(alts)
        ensures L(l) in Bound(b) ==> l !in JumpsOfAlts(rest)
        ensures L(l) in BoundAlts(rest) ==> l !in JumpsOf(b)
      {
        JumpScope(b, l);
        JumpScopeAlts(rest, l);
      }
      MeekTame(b, n, live, strict);
      MeekTameAlts(rest, n, live, strict);
  }

  /** The condition on the normalised body holds exactly when the source meets the lexical one. */
  lemma SourceTame(d: Definition, d': Definition, lx: Lexicon, strict: bool)
    requires Normalizes(d, d', lx) && Hygienic(d', lx) && NamingMeaning.Closed(d)
    ensures TameBody(d'.body, strict) <==> Meek(d.body, |d.params|, strict)
  {
    var vars := Bind(d.params, d'.params, map[]);
    RenamedMeek(d.body, d'.body, vars, map[], d'.params, RulesOf(d, lx), strict);
    NamingMeaning.NormalizedIsClosed(d, d', lx);
    NamingMeaning.HygienicIsUnique(d', lx);
    MeekTame(d'.body, |d.params|, JumpsOf(d'.body), strict);
  }
}
