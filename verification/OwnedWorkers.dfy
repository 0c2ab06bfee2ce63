/** From the raw definition to the owned worker.

    Which formals are owned is decided on the raw definition; the loop is planned on the
    normalised one.  Normalisation keeps every candidate, and the loop survives exactly when
    no self call passes a borrowed formal on under a binder that hides it (`Kept`).
    `RunWorker` is the emitted worker, with or without its loop.
 */
module OwnedWorkers {
  import opened Ir
  import opened Semantics
  import opened TailCalls
  import opened PathUses
  import opened OwnedAccumulators
  import opened OwningUses
  import opened Naming
  import opened Wrappers
  import NamingMeaning
  import JoinExpansion
  import JoinPass
  import DeadJoins
  import Pipeline

  // ---- renaming keeps the uses of a formal ----

  /** `x` is renamed to the formal `x'`, and nothing else is. */
  ghost predicate Follows(x: string, x': string, vars: map<string, string>, formals: seq<string>, r: Rules) {
    && x in vars && vars[x] == x' && x' in formals && (x' == x || Unmentioned(x', r))
    && (forall y :: y in vars && y != x ==> vars[y] != x')
  }

  lemma {:induction false} BindFollows(bs: seq<string>, bs': seq<string>, x: string, x': string,
                                       vars: map<string, string>, formals: seq<string>, r: Rules)
    requires |bs| == |bs'| && x !in bs && x' !in bs' && Follows(x, x', vars, formals, r)
    ensures Follows(x, x', Bind(bs, bs', vars), formals, r)
    decreases |bs|
  {
    if bs != [] {
      BindFollows(bs[1..], bs'[1..], x, x', vars[bs[0] := bs'[0]], formals, r);
    }
  }

  /** Same uses, in the same positions, moved on the same paths. */
  ghost predicate SameUses(e: Expr, e': Expr, x: string, x': string, index: nat, self: string, owned: bool) {
    && OwnedUses(e', x', index, self, owned) && SequentialUses(e', x') == SequentialUses(e, x)
    && Ends(e') == Ends(e) && Moves(e', x') == Moves(e, x) && Rereads(e', x') == Rereads(e, x)
  }

  ghost predicate SameUsesAll(es: Exprs, es': Exprs, x: string, x': string) {
    && SequentialUsesAll(es', x') == SequentialUsesAll(es, x)
    && EndsAll(es') == EndsAll(es) && MovesAll(es', x') == MovesAll(es, x) && RereadsAll(es', x') == RereadsAll(es, x)
  }

  ghost predicate SameUsesAlts(alts: Alts, alts': Alts, x: string, x': string) {
    && SequentialUsesAlts(alts', x') == SequentialUsesAlts(alts, x)
    && EndsAlts(alts') == EndsAlts(alts) && MovesAlts(alts', x') == MovesAlts(alts, x)
    && RereadsAlts(alts', x', false) == RereadsAlts(alts, x, false)
    && RereadsAlts(alts', x', true) == RereadsAlts(alts, x, true)
  }

  lemma {:induction false} RenamedUses(
    e: Expr, e': Expr, vars: map<string, string>, joins: map<string, string>, formals: seq<string>, r: Rules,
    x: string, x': string, index: nat, self: string, owned: bool)
    requires Renamed(e, e', vars, joins, formals, r) && Follows(x, x', vars, formals, r)
    requires OwnedUses(e, x, index, self, owned)
    ensures SameUses(e, e', x, x', index, self, owned)
    decreases e, 1
  {
    match e
    case Lit(_) =>
    case Var(_) =>
    case Unreachable =>
    case Prim(_, _) => RenamedUsesPrim(e, e', vars, joins, formals, r, x, x', index, self, owned);
    case Call(f, es) =>
      RenamedUsesArgs(es, e'.args, vars, joins, formals, r, x, x', index, self, 0, f);
    case If(_, _, _) => RenamedUsesIf(e, e', vars, joins, formals, r, x, x', index, self, owned);
    case Let(_, _, _) => RenamedUsesLet(e, e', vars, joins, formals, r, x, x', index, self, owned);
    case Match(_, _) => RenamedUsesMatch(e, e', vars, joins, formals, r, x, x', index, self, owned);
  }

  lemma {:induction false} RenamedUsesIf(
    e: Expr, e': Expr, vars: map<string, string>, joins: map<string, string>, formals: seq<string>, r: Rules,
    x: string, x': string, index: nat, self: string, owned: bool)
    requires e.If? && Renamed(e, e', vars, joins, formals, r) && Follows(x, x', vars, formals, r)
    requires OwnedUses(e, x, index, self, owned)
    ensures SameUses(e, e', x, x', index, self, owned)
    decreases e, 0
  {
    RenamedUses(e.cond, e'.cond, vars, joins, formals, r, x, x', index, self, false);
    RenamedUses(e.yes, e'.yes, vars, joins, formals, r, x, x', index, self, owned);
    RenamedUses(e.no, e'.no, vars, joins, formals, r, x, x', index, self, owned);
  }

  lemma {:induction false} RenamedUsesLet(
    e: Expr, e': Expr, vars: map<string, string>, joins: map<string, string>, formals: seq<string>, r: Rules,
    x: string, x': string, index: nat, self: string, owned: bool)
    requires e.Let? && Renamed(e, e', vars, joins, formals, r) && Follows(x, x', vars, formals, r)
    requires OwnedUses(e, x, index, self, owned)
    ensures SameUses(e, e', x, x', index, self, owned)
    decreases e, 0
  {
    var Let(y, v, b) := e;
    RenamedUses(v, e'.value, vars, joins, formals, r, x, x', index, self, false);
    RenamedUses(b, e'.body, vars[y := e'.name], Visibly(v, e'.value, joins), formals, r, x, x', index, self, owned);
  }

  lemma {:induction false} RenamedUsesMatch(
    e: Expr, e': Expr, vars: map<string, string>, joins: map<string, string>, formals: seq<string>, r: Rules,
    x: string, x': string, index: nat, self: string, owned: bool)
    requires e.Match? && Renamed(e, e', vars, joins, formals, r) && Follows(x, x', vars, formals, r)
    requires OwnedUses(e, x, index, self, owned)
    ensures SameUses(e, e', x, x', index, self, owned)
    decreases e, 0
  {
    RenamedUses(e.scrut, e'.scrut, vars, joins, formals, r, x, x', index, self, false);
    RenamedUsesAlts(e.alts, e'.alts, vars, joins, formals, r, x, x', index, self, owned);
  }

  lemma {:induction false} RenamedUsesPrim(
    e: Expr, e': Expr, vars: map<string, string>, joins: map<string, string>, formals: seq<string>, r: Rules,
    x: string, x': string, index: nat, self: string, owned: bool)
    requires e.Prim? && Renamed(e, e', vars, joins, formals, r) && Follows(x, x', vars, formals, r)
    requires OwnedUses(e, x, index, self, owned)
    ensures SameUses(e, e', x, x', index, self, owned)
    decreases e, 0
  {
    OperandsOwned(e, x, index, self, owned);
    if e.op.Append? && e.args.Cons? {
      RenamedUses(e.args.head, e'.args.head, vars, joins, formals, r, x, x', index, self, true);
      RenamedUsesAll(e.args.tail, e'.args.tail, vars, joins, formals, r, x, x', index, self, false);
    } else {
      RenamedUsesAll(e.args, e'.args, vars, joins, formals, r, x, x', index, self, e.op.Ctor?);
    }
    OperandsOwned(e', x', index, self, owned);
  }

  lemma {:induction false} RenamedUsesAll(
    es: Exprs, es': Exprs, vars: map<string, string>, joins: map<string, string>, formals: seq<string>, r: Rules,
    x: string, x': string, index: nat, self: string, owned: bool)
    requires RenamedAll(es, es', vars, joins, formals, r) && Follows(x, x', vars, formals, r)
    requires OwnedUsesAll(es, x, index, self, owned)
    ensures OwnedUsesAll(es', x', index, self, owned) && SameUsesAll(es, es', x, x')
    decreases es
  {
    match es
    case Nil =>
    case Cons(e, tail) =>
      RenamedUses(e, es'.head, vars, joins, formals, r, x, x', index, self, owned);
      RenamedUsesAll(tail, es'.tail, vars, joins, formals, r, x, x', index, self, owned);
  }

  lemma {:induction false} RenamedUsesArgs(
    es: Exprs, es': Exprs, vars: map<string, string>, joins: map<string, string>, formals: seq<string>, r: Rules,
    x: string, x': string, index: nat, self: string, position: nat, callee: string)
    requires RenamedAll(es, es', vars, joins, formals, r) && Follows(x, x', vars, formals, r)
    requires OwnedArgs(es, position, x, index, self, callee)
    ensures OwnedArgs(es', position, x', index, self, callee)
    ensures SameUsesAll(es, es', x, x')
    decreases es
  {
    match es
    case Nil =>
    case Cons(e, tail) =>
      RenamedUses(e, es'.head, vars, joins, formals, r, x, x', index, self, callee == self && position == index);
      RenamedUsesArgs(tail, es'.tail, vars, joins, formals, r, x, x', index, self, position + 1, callee);
  }

  lemma {:induction false} RenamedUsesAlts(
    alts: Alts, alts': Alts, vars: map<string, string>, joins: map<string, string>, formals: seq<string>, r: Rules,
    x: string, x': string, index: nat, self: string, owned: bool)
    requires RenamedAlts(alts, alts', vars, joins, formals, r) && Follows(x, x', vars, formals, r)
    requires OwnedUsesAlts(alts, x, index, self, owned)
    ensures OwnedUsesAlts(alts', x', index, self, owned) && SameUsesAlts(alts, alts', x, x')
    decreases alts
  {
    match alts
    case NoMore =>
    case Default(b) => RenamedUses(b, alts'.otherwise, vars, joins, formals, r, x, x', index, self, owned);
    case Alt(_, bs, b, rest) =>
      forall y | y in alts'.binders
        ensures y != x'
      {
        var i :| 0 <= i < |alts'.binders| && alts'.binders[i] == y;
        assert Stands(bs[i], alts'.binders[i], vars, formals, r);
      }
      BindFollows(bs, alts'.binders, x, x', vars, formals, r);
      RenamedUses(b, alts'.body, Bind(bs, alts'.binders, vars), joins, formals, r, x, x', index, self, owned);
      RenamedUsesAlts(rest, alts'.rest, vars, joins, formals, r, x, x', index, self, owned);
  }

  // ---- candidates stay candidates ----

  /** Every formal follows its renaming at the top of the body. */
  lemma FormalFollows(d: Definition, d': Definition, lx: Lexicon, i: nat)
    requires Normalizes(d, d', lx) && i < |d.params|
    ensures |d'.params| == |d.params|
    ensures Follows(d.params[i], d'.params[i], Bind(d.params, d'.params, map[]), d'.params, RulesOf(d, lx))
  {
    var vars := Bind(d.params, d'.params, map[]);
    BindKeys(d.params, d'.params, map[]);
    BindValue(d.params, d'.params, map[], i);
    assert Stands(d.params[i], d'.params[i], map[], [], RulesOf(d, lx));
    forall y | y in vars && y != d.params[i]
      ensures vars[y] != d'.params[i]
    {
      var k :| 0 <= k < |d.params| && d.params[k] == y;
      BindValue(d.params, d'.params, map[], k);
    }
  }

  lemma CandidateKept(d: Definition, d': Definition, lx: Lexicon, i: nat)
    requires Normalizes(d, d', lx) && |d.types| == |d.params| && Candidate(d, i)
    ensures |d'.types| == |d'.params| && Candidate(d', i)
    ensures Rereads(d'.body, d'.params[i]) <==> Rereads(d.body, d.params[i])
  {
    FormalFollows(d, d', lx, i);
    var x, x' := d.params[i], d'.params[i];
    RenamedUses(d.body, d'.body, Bind(d.params, d'.params, map[]), map[], d'.params, RulesOf(d, lx),
                x, x', i, d.name, false);
    PathIsSequential(d.body, x, i, d.name, false);
    PathIsSequential(d'.body, x', i, d.name, false);
  }

  /** An accepted definition has no joins, so expansion leaves it alone. */
  lemma CandidateUnexpanded(s: Pipeline.Stages, lx: Lexicon, i: nat)
    requires Pipeline.Staged(s, lx) && |s.source.types| == |s.source.params| && Candidate(s.source, i)
    ensures s.expanded == s.named && JoinFree(s.source.body)
  {
    var d, d' := s.source, s.named;
    OwnedPlain(d.body, d.params[i], i, d.name, false, |d.params|);
    NamingMeaning.RenamedJoinFree(d.body, d'.body, Bind(d.params, d'.params, map[]), map[], d'.params, RulesOf(d, lx));
    JoinPass.NoJumps(d'.body);
  }

  /** What the raw definition owns, the staged one may own, and moves on the same paths. */
  lemma StagedCandidate(s: Pipeline.Stages, lx: Lexicon, i: nat)
    requires Pipeline.Staged(s, lx) && |s.source.types| == |s.source.params| && Candidate(s.source, i)
    ensures |s.final.types| == |s.final.params| && Candidate(s.final, i)
    ensures Rereads(s.final.body, s.final.params[i]) <==> Rereads(s.source.body, s.source.params[i])
  {
    CandidateKept(s.source, s.named, lx, i);
    CandidateUnexpanded(s, lx, i);
    CandidateKept(s.named, s.final, lx, i);
  }

  // ---- when the loop survives ----

  /** No self call passes a borrowed formal on where a binder hides it. */
  predicate Kept(e: Expr, hidden: set<string>, p: Plan)
    requires p.Valid()
  {
    if Returned(e) then Kept(e.value, hidden, p) else
    match e
    case Lit(_) => true
    case Var(_) => true
    case Param(_) => true
    case Prim(_, es) => KeptAll(es, hidden, p)
    case If(c, t, f) => Kept(c, hidden, p) && Kept(t, hidden, p) && Kept(f, hidden, p)
    case Let(x, v, b) => Kept(v, hidden, p) && Kept(b, hidden + {x}, p)
    case Match(s, alts) => Kept(s, hidden, p) && KeptAlts(alts, hidden, p)
    case Call(f, es) => KeptAll(es, hidden, p) && (f == p.name && Len(es) == |p.params| ==> KeptArgs(es, 0, hidden, p))
    case Jp(_, _, c) => Kept(c, hidden, p)
    case Jmp(_, es) => KeptAll(es, hidden, p)
    case Unreachable => true
  }

  predicate KeptAll(es: Exprs, hidden: set<string>, p: Plan)
    requires p.Valid()
  {
    match es
    case Nil => true
    case Cons(e, tail) => Kept(e, hidden, p) && KeptAll(tail, hidden, p)
  }

  predicate KeptAlts(alts: Alts, hidden: set<string>, p: Plan)
    requires p.Valid()
  {
    match alts
    case NoMore => true
    case Default(b) => Kept(b, hidden, p)
    case Alt(_, bs, b, rest) => Kept(b, hidden + (set x | x in bs), p) && KeptAlts(rest, hidden, p)
  }

  predicate KeptArgs(es: Exprs, i: nat, hidden: set<string>, p: Plan)
    requires p.Valid() && i + Len(es) == |p.params|
  {
    match es
    case Nil => true
    case Cons(e, tail) =>
      && (p.borrowed[i] && Unchanged(e, p.params[i]) ==> p.params[i] !in hidden)
      && KeptArgs(tail, i + 1, hidden, p)
  }

  /** The formal itself, by position or by a name that no binder hides. */
  predicate Passed(e: Expr, i: nat, hidden: set<string>, p: Plan)
    requires p.Valid() && i < |p.params|
  {
    e == Param(i) || (Unchanged(e, p.params[i]) && p.params[i] !in hidden)
  }

  /** What the planner will find once names are unique: self calls in tail position only, with
      every formal, and borrowed formals passed on as they are. */
  predicate Loops(e: Expr, tail: bool, hidden: set<string>, p: Plan)
    requires p.Valid()
  {
    if Returned(e) then Loops(e.value, tail, hidden, p) else
    match e
    case Lit(_) => true
    case Var(_) => true
    case Param(_) => true
    case Prim(_, es) => LoopsAll(es, hidden, p)
    case If(c, t, f) => Loops(c, false, hidden, p) && Loops(t, tail, hidden, p) && Loops(f, tail, hidden, p)
    case Let(x, v, b) => Loops(v, false, hidden, p) && Loops(b, tail, hidden + {x}, p)
    case Match(s, alts) => Loops(s, false, hidden, p) && LoopsAlts(alts, tail, hidden, p)
    case Call(f, es) =>
      if f == p.name then tail && Len(es) == |p.params| && LoopsArgs(es, 0, hidden, p) else LoopsAll(es, hidden, p)
    case Jp(_, _, c) => Loops(c, false, hidden, p)
    case Jmp(_, es) => LoopsAll(es, hidden, p)
    case Unreachable => true
  }

  predicate LoopsAll(es: Exprs, hidden: set<string>, p: Plan)
    requires p.Valid()
  {
    match es
    case Nil => true
    case Cons(e, tail) => Loops(e, false, hidden, p) && LoopsAll(tail, hidden, p)
  }

  predicate LoopsAlts(alts: Alts, tail: bool, hidden: set<string>, p: Plan)
    requires p.Valid()
  {
    match alts
    case NoMore => true
    case Default(b) => Loops(b, tail, hidden, p)
    case Alt(_, bs, b, rest) => Loops(b, tail, hidden + (set x | x in bs), p) && LoopsAlts(rest, tail, hidden, p)
  }

  predicate LoopsArgs(es: Exprs, i: nat, hidden: set<string>, p: Plan)
    requires p.Valid() && i + Len(es) == |p.params|
  {
    match es
    case Nil => true
    case Cons(e, tail) =>
      && (p.borrowed[i] ==> Passed(e, i, hidden, p))
      && Loops(e, false, hidden, p)
      && LoopsArgs(tail, i + 1, hidden, p)
  }

  ghost predicate MarksAll(p: Plan) {
    p.Valid() && forall i :: 0 <= i < |p.changed| ==> p.changed[i]
  }

  /** Without positional references that is lowering with all marks, and every borrowed formal
      kept. */
  lemma {:induction false} LoopsKept(e: Expr, tail: bool, hidden: set<string>, p: Plan)
    requires NoParam(e, |p.params|) && MarksAll(p)
    ensures Loops(e, tail, hidden, p) <==> Lowers(e, tail, p) && Kept(e, hidden, p)
    decreases e
  {
    match e
    case Lit(_) =>
    case Var(_) =>
    case Param(_) =>
    case Unreachable =>
    case Prim(_, es) => LoopsKeptAll(es, hidden, p);
    case If(c, t, f) =>
      LoopsKept(c, false, hidden, p);
      LoopsKept(t, tail, hidden, p);
      LoopsKept(f, tail, hidden, p);
    case Let(x, v, b) =>
      if Returned(e) {
        LoopsKept(v, tail, hidden, p);
      } else {
        LoopsKept(v, false, hidden, p);
        LoopsKept(b, tail, hidden + {x}, p);
      }
    case Match(s, alts) =>
      LoopsKept(s, false, hidden, p);
      LoopsKeptAlts(alts, tail, hidden, p);
    case Call(f, es) =>
      LoopsKeptAll(es, hidden, p);
      if Len(es) == |p.params| {
        LoopsKeptArgs(es, 0, hidden, p);
      }
    case Jp(_, _, c) => LoopsKept(c, false, hidden, p);
    case Jmp(_, es) => LoopsKeptAll(es, hidden, p);
  }

  lemma {:induction false} LoopsKeptAll(es: Exprs, hidden: set<string>, p: Plan)
    requires NoParamAll(es, |p.params|) && MarksAll(p)
    ensures LoopsAll(es, hidden, p) <==> LowersAll(es, p) && KeptAll(es, hidden, p)
    decreases es
  {
    match es
    case Nil =>
    case Cons(e, tail) =>
      LoopsKept(e, false, hidden, p);
      LoopsKeptAll(tail, hidden, p);
  }

  lemma {:induction false} LoopsKeptAlts(alts: Alts, tail: bool, hidden: set<string>, p: Plan)
    requires NoParamAlts(alts, |p.params|) && MarksAll(p)
    ensures LoopsAlts(alts, tail, hidden, p) <==> LowersAlts(alts, tail, p) && KeptAlts(alts, hidden, p)
    decreases alts
  {
    match alts
    case NoMore =>
    case Default(b) => LoopsKept(b, tail, hidden, p);
    case Alt(_, bs, b, rest) =>
      LoopsKept(b, tail, hidden + (set x | x in bs), p);
      LoopsKeptAlts(rest, tail, hidden, p);
  }

  lemma {:induction false} LoopsKeptArgs(es: Exprs, i: nat, hidden: set<string>, p: Plan)
    requires NoParamAll(es, |p.params|) && MarksAll(p) && i + Len(es) == |p.params|
    ensures LoopsArgs(es, i, hidden, p)
       <==> LowersArgs(es, i, p) && KeptAll(es, hidden, p) && KeptArgs(es, i, hidden, p)
    decreases es
  {
    match es
    case Nil =>
    case Cons(e, tail) =>
      LoopsKept(e, false, hidden, p);
      LoopsKeptArgs(tail, i + 1, hidden, p);
  }

  /** Visible formals are renamed to formals; hidden ones and other locals are not. */
  ghost predicate Tracked(vars: map<string, string>, hidden: set<string>, p: Plan, p': Plan, r: Rules)
    requires p.Valid() && p'.Valid()
  {
    && |p.params| == |p'.params| && Distinct(p.params) && Distinct(p'.params)
    && (forall i :: 0 <= i < |p.params| ==> p.params[i] in vars)
    && (forall i :: 0 <= i < |p.params| ==> p'.params[i] == p.params[i] || Unmentioned(p'.params[i], r))
    && (forall y, i :: y in vars && 0 <= i < |p.params| ==>
          (vars[y] == p'.params[i] <==> y == p.params[i] && y !in hidden))
  }

  lemma TrackOne(vars: map<string, string>, hidden: set<string>, p: Plan, p': Plan, r: Rules, x: string, x': string)
    requires p.Valid() && p'.Valid() && Tracked(vars, hidden, p, p', r) && x' !in p'.params
    ensures Tracked(vars[x := x'], hidden + {x}, p, p', r)
  {}

  lemma {:induction false} TrackAll(vars: map<string, string>, hidden: set<string>, p: Plan, p': Plan, r: Rules,
                                    xs: seq<string>, xs': seq<string>)
    requires p.Valid() && p'.Valid() && Tracked(vars, hidden, p, p', r)
    requires |xs| == |xs'| && forall x :: x in xs' ==> x !in p'.params
    ensures Tracked(Bind(xs, xs', vars), hidden + (set x | x in xs), p, p', r)
    decreases |xs|
  {
    if xs == [] {
      assert hidden + (set x | x in xs) == hidden;
    } else {
      assert xs'[0] in xs';
      TrackOne(vars, hidden, p, p', r, xs[0], xs'[0]);
      TrackAll(vars[xs[0] := xs'[0]], hidden + {xs[0]}, p, p', r, xs[1..], xs'[1..]);
      assert hidden + {xs[0]} + (set x | x in xs[1..]) == hidden + (set x | x in xs);
    }
  }

  /** The two plans differ in the spelling of the formals only, and mark every formal. */
  ghost predicate Twins(p: Plan, p': Plan) {
    && p.Valid() && p'.Valid() && p.name == p'.name && |p.params| == |p'.params| && p.borrowed == p'.borrowed
    && (forall i :: 0 <= i < |p.params| ==> p.changed[i] && p'.changed[i])
  }

  lemma ReturnedKept(e: Expr, e': Expr, vars: map<string, string>, joins: map<string, string>, formals: seq<string>,
                     r: Rules)
    requires e.Let? && Renamed(e, e', vars, joins, formals, r)
    ensures Returned(e') <==> Returned(e)
  {
    assert Stands(e.name, e'.name, vars, formals, r);
    if e.body.Var? {
      assert Refers(e.body.name, e'.body.name, vars[e.name := e'.name], r);
    }
    assert e'.name !in formals;
  }

  /** A renamed term can be lowered under full marks exactly when the original term loops. */
  lemma {:induction false} RenamedLowers(
    e: Expr, e': Expr, tail: bool, vars: map<string, string>, joins: map<string, string>, r: Rules,
    hidden: set<string>, p: Plan, p': Plan)
    requires JoinFree(e) && Twins(p, p')
    requires Renamed(e, e', vars, joins, p'.params, r) && Tracked(vars, hidden, p, p', r)
    ensures Lowers(e', tail, p') <==> Loops(e, tail, hidden, p)
    decreases e, 1
  {
    match e
    case Lit(_) =>
    case Var(_) =>
    case Param(_) =>
    case Unreachable =>
    case Prim(_, es) => RenamedLowersAll(es, e'.args, vars, joins, r, hidden, p, p');
    case If(c, t, f) =>
      RenamedLowers(c, e'.cond, false, vars, joins, r, hidden, p, p');
      RenamedLowers(t, e'.yes, tail, vars, joins, r, hidden, p, p');
      RenamedLowers(f, e'.no, tail, vars, joins, r, hidden, p, p');
    case Let(_, _, _) => RenamedLowersLet(e, e', tail, vars, joins, r, hidden, p, p');
    case Match(s, alts) =>
      RenamedLowers(s, e'.scrut, false, vars, joins, r, hidden, p, p');
      RenamedLowersAlts(alts, e'.alts, tail, vars, joins, r, hidden, p, p');
    case Call(_, _) => RenamedLowersCall(e, e', tail, vars, joins, r, hidden, p, p');
  }

  lemma {:induction false} RenamedLowersLet(
    e: Expr, e': Expr, tail: bool, vars: map<string, string>, joins: map<string, string>, r: Rules,
    hidden: set<string>, p: Plan, p': Plan)
    requires e.Let? && JoinFree(e) && Twins(p, p')
    requires Renamed(e, e', vars, joins, p'.params, r) && Tracked(vars, hidden, p, p', r)
    ensures Lowers(e', tail, p') <==> Loops(e, tail, hidden, p)
    decreases e, 0
  {
    var Let(x, v, b) := e;
    ReturnedKept(e, e', vars, joins, p'.params, r);
    RenamedLowers(v, e'.value, if Returned(e) then tail else false, vars, joins, r, hidden, p, p');
    if !Returned(e) {
      TrackOne(vars, hidden, p, p', r, x, e'.name);
      RenamedLowers(b, e'.body, tail, vars[x := e'.name], Visibly(v, e'.value, joins), r, hidden + {x}, p, p');
    }
  }

  lemma {:induction false} RenamedLen(es: Exprs, es': Exprs, vars: map<string, string>, joins: map<string, string>,
                                      formals: seq<string>, r: Rules)
    requires RenamedAll(es, es', vars, joins, formals, r)
    ensures Len(es') == Len(es)
  {
    match es
    case Nil =>
    case Cons(_, tail) => RenamedLen(tail, es'.tail, vars, joins, formals, r);
  }

  lemma {:induction false} RenamedLowersCall(
    e: Expr, e': Expr, tail: bool, vars: map<string, string>, joins: map<string, string>, r: Rules,
    hidden: set<string>, p: Plan, p': Plan)
    requires e.Call? && JoinFree(e) && Twins(p, p')
    requires Renamed(e, e', vars, joins, p'.params, r) && Tracked(vars, hidden, p, p', r)
    ensures Lowers(e', tail, p') <==> Loops(e, tail, hidden, p)
    decreases e, 0
  {
    RenamedLen(e.args, e'.args, vars, joins, p'.params, r);
    RenamedLowersAll(e.args, e'.args, vars, joins, r, hidden, p, p');
    if e.callee == p.name && Len(e.args) == |p.params| {
      RenamedLowersArgs(e.args, e'.args, 0, vars, joins, r, hidden, p, p');
    }
  }

  lemma {:induction false} RenamedLowersAll(
    es: Exprs, es': Exprs, vars: map<string, string>, joins: map<string, string>, r: Rules,
    hidden: set<string>, p: Plan, p': Plan)
    requires JoinFreeAll(es) && Twins(p, p')
    requires RenamedAll(es, es', vars, joins, p'.params, r) && Tracked(vars, hidden, p, p', r)
    ensures LowersAll(es', p') <==> LoopsAll(es, hidden, p)
    decreases es, 0
  {
    match es
    case Nil =>
    case Cons(e, tail) =>
      RenamedLowers(e, es'.head, false, vars, joins, r, hidden, p, p');
      RenamedLowersAll(tail, es'.tail, vars, joins, r, hidden, p, p');
  }

  /** An argument is an unchanged formal after renaming exactly when it was one and visible. */
  lemma UnchangedKept(e: Expr, e': Expr, i: nat, vars: map<string, string>, joins: map<string, string>, r: Rules,
                      hidden: set<string>, p: Plan, p': Plan)
    requires JoinFree(e) && Twins(p, p') && i < |p.params|
    requires Renamed(e, e', vars, joins, p'.params, r) && Tracked(vars, hidden, p, p', r)
    ensures Unchanged(e', p'.params[i]) <==> Passed(e, i, hidden, p)
  {
    if e.Var? {
      assert Refers(e.name, e'.name, vars, r);
    }
  }

  lemma {:induction false} RenamedLowersArgs(
    es: Exprs, es': Exprs, i: nat, vars: map<string, string>, joins: map<string, string>, r: Rules,
    hidden: set<string>, p: Plan, p': Plan)
    requires JoinFreeAll(es) && Twins(p, p')
    requires i + Len(es) == |p.params| && Len(es') == Len(es)
    requires RenamedAll(es, es', vars, joins, p'.params, r) && Tracked(vars, hidden, p, p', r)
    ensures LowersArgs(es', i, p') <==> LoopsArgs(es, i, hidden, p)
    decreases es, 0
  {
    match es
    case Nil =>
    case Cons(e, tail) =>
      UnchangedKept(e, es'.head, i, vars, joins, r, hidden, p, p');
      RenamedLowers(e, es'.head, false, vars, joins, r, hidden, p, p');
      RenamedLowersArgs(tail, es'.tail, i + 1, vars, joins, r, hidden, p, p');
  }

  lemma {:induction false} RenamedLowersAlts(
    alts: Alts, alts': Alts, tail: bool, vars: map<string, string>, joins: map<string, string>, r: Rules,
    hidden: set<string>, p: Plan, p': Plan)
    requires JoinFreeAlts(alts) && Twins(p, p')
    requires RenamedAlts(alts, alts', vars, joins, p'.params, r) && Tracked(vars, hidden, p, p', r)
    ensures LowersAlts(alts', tail, p') <==> LoopsAlts(alts, tail, hidden, p)
    decreases alts, 0
  {
    match alts
    case NoMore =>
    case Default(b) => RenamedLowers(b, alts'.otherwise, tail, vars, joins, r, hidden, p, p');
    case Alt(_, bs, b, rest) =>
      forall y | y in alts'.binders
        ensures y !in p'.params
      {
        var i :| 0 <= i < |alts'.binders| && alts'.binders[i] == y;
        assert Stands(bs[i], alts'.binders[i], vars, p'.params, r);
      }
      TrackAll(vars, hidden, p, p', r, bs, alts'.binders);
      RenamedLowers(b, alts'.body, tail, Bind(bs, alts'.binders, vars), joins, r, hidden + (set x | x in bs), p, p');
      RenamedLowersAlts(rest, alts'.rest, tail, vars, joins, r, hidden, p, p');
  }

  function FullMarks(d: Definition): seq<bool> {
    seq(|d.params|, i => true)
  }

  function FullPlan(d: Definition, borrowed: seq<bool>): (p: Plan)
    requires |borrowed| == |d.params|
    ensures p.Valid()
  {
    Plan(d.name, d.params, borrowed, FullMarks(d))
  }

  /** Some marks allow lowering exactly when all of them do. */
  lemma SomeMarks(d: Definition, borrowed: seq<bool>)
    requires |borrowed| == |d.params|
    ensures (exists marks :: Lowering(d, borrowed, marks)) <==> Lowers(d.body, true, FullPlan(d, borrowed))
  {
    if marks :| Lowering(d, borrowed, marks) {
      LowersMore(d.body, true, Plan(d.name, d.params, borrowed, marks), FullMarks(d));
    }
    if Lowers(d.body, true, FullPlan(d, borrowed)) {
      assert Lowering(d, borrowed, FullMarks(d));
    }
  }

  lemma TopTracked(d: Definition, d': Definition, lx: Lexicon, borrowed: seq<bool>)
    requires Normalizes(d, d', lx) && |borrowed| == |d.params| == |d'.params|
    ensures Tracked(Bind(d.params, d'.params, map[]), {}, FullPlan(d, borrowed), FullPlan(d', borrowed), RulesOf(d, lx))
  {
    var vars := Bind(d.params, d'.params, map[]);
    BindKeys(d.params, d'.params, map[]);
    forall i | 0 <= i < |d.params|
      ensures d.params[i] in vars && (d'.params[i] == d.params[i] || Unmentioned(d'.params[i], RulesOf(d, lx)))
      ensures forall y :: y in vars ==> (vars[y] == d'.params[i] <==> y == d.params[i])
    {
      FormalFollows(d, d', lx, i);
    }
  }

  /** A normalised definition can be lowered exactly when the original one loops. */
  lemma NormalizedLowers(d: Definition, d': Definition, lx: Lexicon, borrowed: seq<bool>)
    requires Normalizes(d, d', lx) && JoinFree(d.body) && |borrowed| == |d.params|
    ensures |d'.params| == |d.params|
    ensures Lowers(d'.body, true, FullPlan(d', borrowed)) <==> Loops(d.body, true, {}, FullPlan(d, borrowed))
  {
    assert |d'.params| == |d.params|;
    TopTracked(d, d', lx, borrowed);
    RenamedLowers(d.body, d'.body, true, Bind(d.params, d'.params, map[]), map[], RulesOf(d, lx), {},
                  FullPlan(d, borrowed), FullPlan(d', borrowed));
  }

  /** Where no binder hides a formal, every formal is kept. */
  lemma {:induction false} UnhiddenKept(e: Expr, hidden: set<string>, p: Plan)
    requires p.Valid() && forall x :: x in p.params ==> x !in hidden && V(x) !in Bound(e)
    ensures Kept(e, hidden, p)
    decreases e
  {
    match e
    case Lit(_) =>
    case Var(_) =>
    case Param(_) =>
    case Unreachable =>
    case Prim(_, es) => UnhiddenKeptAll(es, hidden, p);
    case If(c, t, f) =>
      UnhiddenKept(c, hidden, p);
      UnhiddenKept(t, hidden, p);
      UnhiddenKept(f, hidden, p);
    case Let(x, v, b) =>
      UnhiddenKept(v, hidden, p);
      UnhiddenKept(b, hidden + {x}, p);
    case Match(s, alts) =>
      UnhiddenKept(s, hidden, p);
      UnhiddenKeptAlts(alts, hidden, p);
    case Call(f, es) =>
      UnhiddenKeptAll(es, hidden, p);
      if Len(es) == |p.params| {
        UnhiddenKeptArgs(es, 0, hidden, p);
      }
    case Jp(_, _, c) => UnhiddenKept(c, hidden, p);
    case Jmp(_, es) => UnhiddenKeptAll(es, hidden, p);
  }

  lemma {:induction false} UnhiddenKeptAll(es: Exprs, hidden: set<string>, p: Plan)
    requires p.Valid() && forall x :: x in p.params ==> x !in hidden && V(x) !in BoundAll(es)
    ensures KeptAll(es, hidden, p)
    decreases es
  {
    match es
    case Nil =>
    case Cons(e, tail) =>
      UnhiddenKept(e, hidden, p);
      UnhiddenKeptAll(tail, hidden, p);
  }

  lemma {:induction false} UnhiddenKeptAlts(alts: Alts, hidden: set<string>, p: Plan)
    requires p.Valid() && forall x :: x in p.params ==> x !in hidden && V(x) !in BoundAlts(alts)
    ensures KeptAlts(alts, hidden, p)
    decreases alts
  {
    match alts
    case NoMore =>
    case Default(b) => UnhiddenKept(b, hidden, p);
    case Alt(_, bs, b, rest) =>
      UnhiddenKept(b, hidden + (set x | x in bs), p);
      UnhiddenKeptAlts(rest, hidden, p);
  }

  lemma {:induction false} UnhiddenKeptArgs(es: Exprs, i: nat, hidden: set<string>, p: Plan)
    requires p.Valid() && i + Len(es) == |p.params| && forall x :: x in p.params ==> x !in hidden
    ensures KeptArgs(es, i, hidden, p)
    decreases es
  {
    match es
    case Nil =>
    case Cons(_, tail) => UnhiddenKeptArgs(tail, i + 1, hidden, p);
  }

  /** The staged definition can be lowered exactly when the expanded body loops, joins or not. */
  lemma LoopSurvives(s: Pipeline.Stages, lx: Lexicon, borrowed: seq<bool>)
    requires Pipeline.Staged(s, lx) && NamingMeaning.Closed(s.source) && |borrowed| == |s.source.params|
    ensures |s.final.params| == |s.expanded.params| == |s.source.params|
    ensures (exists marks :: Lowering(s.final, borrowed, marks))
       <==> Loops(s.expanded.body, true, {}, FullPlan(s.expanded, borrowed))
  {
    Pipeline.ExpandedIsJoinFree(s, lx);
    NormalizedLowers(s.expanded, s.final, lx, borrowed);
    SomeMarks(s.final, borrowed);
  }

  /** Without joins, exactly when the raw body loops. */
  lemma LoopUnexpanded(s: Pipeline.Stages, lx: Lexicon, borrowed: seq<bool>)
    requires Pipeline.Staged(s, lx) && |borrowed| == |s.source.params| && JoinFree(s.source.body)
    ensures |s.final.params| == |s.source.params|
    ensures (exists marks :: Lowering(s.final, borrowed, marks))
       <==> Loops(s.source.body, true, {}, FullPlan(s.source, borrowed))
  {
    var d := s.source;
    NormalizedLowers(d, s.named, lx, borrowed);
    NamingMeaning.RenamedJoinFree(d.body, s.named.body, Bind(d.params, s.named.params, map[]), map[], s.named.params,
                                  RulesOf(d, lx));
    JoinPass.NoJumps(s.named.body);
    NamingMeaning.HygienicIsUnique(s.named, lx);
    var p := FullPlan(s.named, borrowed);
    UnhiddenKept(s.named.body, {}, p);
    LoopsKept(s.named.body, true, {}, p);
    NormalizedLowers(s.named, s.final, lx, borrowed);
    SomeMarks(s.final, borrowed);
  }

  /** Without positional references the raw body loops exactly when it can be lowered and no
      borrowed formal is passed on where it is hidden. */
  lemma LoopsExactly(d: Definition, borrowed: seq<bool>)
    requires NoParam(d.body, |d.params|) && |borrowed| == |d.params|
    ensures Loops(d.body, true, {}, FullPlan(d, borrowed))
       <==> (exists marks :: Lowering(d, borrowed, marks)) && Kept(d.body, {}, FullPlan(d, borrowed))
  {
    LoopsKept(d.body, true, {}, FullPlan(d, borrowed));
    SomeMarks(d, borrowed);
  }

  // ---- from the owned formals to the loop ----

  /** What `Parameters` returns. */
  ghost predicate Chosen(d: Definition, borrowing: seq<bool>, copies: bool, owned: set<nat>)
    requires |d.types| == |d.params| == |borrowing|
  {
    && (forall i :: i in owned <==> Accepted(d, borrowing, copies, i))
    && (owned != {} ==>
          exists changed :: Lowering(d, Borrowed(d, borrowing), changed)
            && forall i :: Candidate(d, i) && i !in owned ==> !changed[i])
  }

  /** Borrowing in the worker: owned formals are not borrowed. */
  function WorkerBorrowed(borrowing: seq<bool>, owned: set<nat>): (r: seq<bool>)
    ensures |r| == |borrowing|
  {
    seq(|borrowing|, i requires 0 <= i < |borrowing| => borrowing[i] && i !in owned)
  }

  /** Borrowing a formal that no back edge changes does not matter. */
  lemma {:induction false} BorrowMore(e: Expr, tail: bool, p: Plan, borrowed: seq<bool>)
    requires p.Valid() && |borrowed| == |p.params| && Lowers(e, tail, p)
    requires forall i :: 0 <= i < |borrowed| && borrowed[i] ==> p.borrowed[i] || !p.changed[i]
    ensures Lowers(e, tail, p.(borrowed := borrowed))
    decreases e
  {
    if Returned(e) {
      BorrowMore(e.value, tail, p, borrowed);
    } else {
      match e
      case Lit(_) =>
      case Var(_) =>
      case Param(_) =>
      case Unreachable =>
      case Prim(_, es) => BorrowMoreAll(es, p, borrowed);
      case If(c, t, f) =>
        BorrowMore(c, false, p, borrowed);
        BorrowMore(t, tail, p, borrowed);
        BorrowMore(f, tail, p, borrowed);
      case Let(_, v, b) =>
        BorrowMore(v, false, p, borrowed);
        BorrowMore(b, tail, p, borrowed);
      case Match(s, alts) =>
        BorrowMore(s, false, p, borrowed);
        BorrowMoreAlts(alts, tail, p, borrowed);
      case Call(f, es) =>
        if f == p.name {
          BorrowMoreArgs(es, 0, p, borrowed);
        } else {
          BorrowMoreAll(es, p, borrowed);
        }
      case Jp(_, _, c) => BorrowMore(c, false, p, borrowed);
      case Jmp(_, es) => BorrowMoreAll(es, p, borrowed);
    }
  }

  lemma {:induction false} BorrowMoreAll(es: Exprs, p: Plan, borrowed: seq<bool>)
    requires p.Valid() && |borrowed| == |p.params| && LowersAll(es, p)
    requires forall i :: 0 <= i < |borrowed| && borrowed[i] ==> p.borrowed[i] || !p.changed[i]
    ensures LowersAll(es, p.(borrowed := borrowed))
    decreases es
  {
    match es
    case Nil =>
    case Cons(e, tail) =>
      BorrowMore(e, false, p, borrowed);
      BorrowMoreAll(tail, p, borrowed);
  }

  lemma {:induction false} BorrowMoreAlts(alts: Alts, tail: bool, p: Plan, borrowed: seq<bool>)
    requires p.Valid() && |borrowed| == |p.params| && LowersAlts(alts, tail, p)
    requires forall i :: 0 <= i < |borrowed| && borrowed[i] ==> p.borrowed[i] || !p.changed[i]
    ensures LowersAlts(alts, tail, p.(borrowed := borrowed))
    decreases alts
  {
    match alts
    case NoMore =>
    case Default(b) => BorrowMore(b, tail, p, borrowed);
    case Alt(_, _, b, rest) =>
      BorrowMore(b, tail, p, borrowed);
      BorrowMoreAlts(rest, tail, p, borrowed);
  }

  lemma {:induction false} BorrowMoreArgs(es: Exprs, i: nat, p: Plan, borrowed: seq<bool>)
    requires p.Valid() && |borrowed| == |p.params| && i + Len(es) == |p.params| && LowersArgs(es, i, p)
    requires forall k :: 0 <= k < |borrowed| && borrowed[k] ==> p.borrowed[k] || !p.changed[k]
    ensures LowersArgs(es, i, p.(borrowed := borrowed))
    decreases es
  {
    match es
    case Nil =>
    case Cons(e, tail) =>
      BorrowMore(e, false, p, borrowed);
      BorrowMoreArgs(tail, i + 1, p, borrowed);
  }

  /** The owned worker keeps its loop exactly when no borrowed formal of the raw definition
      is passed on where a binder hides it. */
  lemma OwnedLoopSurvives(s: Pipeline.Stages, lx: Lexicon, borrowing: seq<bool>, copies: bool, owned: set<nat>)
    requires Pipeline.Staged(s, lx) && |s.source.types| == |s.source.params| == |borrowing|
    requires Chosen(s.source, borrowing, copies, owned) && owned != {}
    ensures |s.final.params| == |borrowing|
    ensures (exists marks :: Lowering(s.final, WorkerBorrowed(borrowing, owned), marks))
       <==> Kept(s.source.body, {}, FullPlan(s.source, WorkerBorrowed(borrowing, owned)))
  {
    var d, borrowed := s.source, WorkerBorrowed(borrowing, owned);
    var i :| i in owned;
    OwnedPlain(d.body, d.params[i], i, d.name, false, |d.params|);
    var changed :| Lowering(d, Borrowed(d, borrowing), changed)
      && forall k :: Candidate(d, k) && k !in owned ==> !changed[k];
    var p := Plan(d.name, d.params, Borrowed(d, borrowing), changed);
    BorrowMore(d.body, true, p, borrowed);
    assert p.(borrowed := borrowed) == Plan(d.name, d.params, borrowed, changed);
    assert Lowering(d, borrowed, changed);
    LoopUnexpanded(s, lx, borrowed);
    LoopsExactly(d, borrowed);
  }

  // ---- self calls are kept by renaming ----

  lemma {:induction false} RenamedSelfCall(
    e: Expr, e': Expr, vars: map<string, string>, joins: map<string, string>,
    formals: seq<string>, r: Rules, name: string)
    requires Renamed(e, e', vars, joins, formals, r)
    ensures NoSelfCall(e', name) <==> NoSelfCall(e, name)
    decreases e, 1
  {
    match e
    case Lit(_) =>
    case Var(_) =>
    case Param(_) =>
    case Unreachable =>
    case Prim(_, es) => RenamedSelfCallAll(es, e'.args, vars, joins, formals, r, name);
    case If(_, _, _) => RenamedSelfCallIf(e, e', vars, joins, formals, r, name);
    case Let(_, _, _) => RenamedSelfCallLet(e, e', vars, joins, formals, r, name);
    case Match(_, _) => RenamedSelfCallMatch(e, e', vars, joins, formals, r, name);
    case Call(_, es) => RenamedSelfCallAll(es, e'.args, vars, joins, formals, r, name);
    case Jp(l, ps, c) =>
      ChildrenOf(e, name);
      ChildrenOf(e', name);
      RenamedSelfCall(c, e'.cont, Bind(ps, e'.params, vars), joins[l := e'.target], formals, r, name);
    case Jmp(_, es) => RenamedSelfCallAll(es, e'.args, vars, joins, formals, r, name);
  }

  lemma {:induction false} RenamedSelfCallIf(
    e: Expr, e': Expr, vars: map<string, string>, joins: map<string, string>,
    formals: seq<string>, r: Rules, name: string)
    requires e.If? && Renamed(e, e', vars, joins, formals, r)
    ensures NoSelfCall(e', name) <==> NoSelfCall(e, name)
    decreases e, 0
  {
    ChildrenOf(e, name);
    ChildrenOf(e', name);
    RenamedSelfCall(e.cond, e'.cond, vars, joins, formals, r, name);
    RenamedSelfCall(e.yes, e'.yes, vars, joins, formals, r, name);
    RenamedSelfCall(e.no, e'.no, vars, joins, formals, r, name);
  }

  lemma {:induction false} RenamedSelfCallLet(
    e: Expr, e': Expr, vars: map<string, string>, joins: map<string, string>,
    formals: seq<string>, r: Rules, name: string)
    requires e.Let? && Renamed(e, e', vars, joins, formals, r)
    ensures NoSelfCall(e', name) <==> NoSelfCall(e, name)
    decreases e, 0
  {
    ChildrenOf(e, name);
    ChildrenOf(e', name);
    RenamedSelfCall(e.value, e'.value, vars, joins, formals, r, name);
    RenamedSelfCall(e.body, e'.body, vars[e.name := e'.name], Visibly(e.value, e'.value, joins), formals, r, name);
  }

  lemma {:induction false} RenamedSelfCallMatch(
    e: Expr, e': Expr, vars: map<string, string>, joins: map<string, string>,
    formals: seq<string>, r: Rules, name: string)
    requires e.Match? && Renamed(e, e', vars, joins, formals, r)
    ensures NoSelfCall(e', name) <==> NoSelfCall(e, name)
    decreases e, 0
  {
    ChildrenOf(e, name);
    ChildrenOf(e', name);
    RenamedSelfCall(e.scrut, e'.scrut, vars, joins, formals, r, name);
    RenamedSelfCallAlts(e.alts, e'.alts, vars, joins, formals, r, name);
  }

  lemma {:induction false} RenamedSelfCallAll(es: Exprs, es': Exprs, vars: map<string, string>,
                                              joins: map<string, string>, formals: seq<string>, r: Rules, name: string)
    requires RenamedAll(es, es', vars, joins, formals, r)
    ensures NoSelfCalls(Listed(es'), name) <==> NoSelfCalls(Listed(es), name)
    decreases es
  {
    ChildrenOf(Unreachable, name);
    match es
    case Nil =>
    case Cons(e, tail) =>
      RenamedSelfCall(e, es'.head, vars, joins, formals, r, name);
      RenamedSelfCallAll(tail, es'.tail, vars, joins, formals, r, name);
  }

  lemma {:induction false} RenamedSelfCallAlts(alts: Alts, alts': Alts, vars: map<string, string>,
                                               joins: map<string, string>, formals: seq<string>, r: Rules, name: string)
    requires RenamedAlts(alts, alts', vars, joins, formals, r)
    ensures NoSelfCalls(Bodies(alts'), name) <==> NoSelfCalls(Bodies(alts), name)
    decreases alts
  {
    ChildrenOf(Unreachable, name);
    match alts
    case NoMore =>
    case Default(b) => RenamedSelfCall(b, alts'.otherwise, vars, joins, formals, r, name);
    case Alt(_, bs, b, rest) =>
      RenamedSelfCall(b, alts'.body, Bind(bs, alts'.binders, vars), joins, formals, r, name);
      RenamedSelfCallAlts(rest, alts'.rest, vars, joins, formals, r, name);
  }

  /** Normalising the expanded body adds and removes no self call. */
  lemma StagedSelfCall(s: Pipeline.Stages, lx: Lexicon)
    requires Pipeline.Staged(s, lx)
    ensures NoSelfCall(s.final.body, s.final.name) <==> NoSelfCall(s.expanded.body, s.source.name)
  {
    var d := s.expanded;
    RenamedSelfCall(d.body, s.final.body, Bind(d.params, s.final.params, map[]), map[], s.final.params, RulesOf(d, lx),
                    d.name);
  }

  lemma UnexpandedSelfCall(s: Pipeline.Stages, lx: Lexicon)
    requires Pipeline.Staged(s, lx) && JoinFree(s.source.body)
    ensures NoSelfCall(s.expanded.body, s.source.name) <==> NoSelfCall(s.source.body, s.source.name)
  {
    var d := s.source;
    NamingMeaning.RenamedJoinFree(d.body, s.named.body, Bind(d.params, s.named.params, map[]), map[], s.named.params,
                                  RulesOf(d, lx));
    JoinPass.NoJumps(s.named.body);
    RenamedSelfCall(d.body, s.named.body, Bind(d.params, s.named.params, map[]), map[], s.named.params, RulesOf(d, lx),
                    d.name);
  }

  // ---- an accepted formal whose worker has no loop ----

  /** `f n s acc = if n == 0 then R acc else let s = [] in f (n - 1) s (acc ++ [])`. */
  const Shadowing: Definition := Definition("f", ["n", "s", "acc"], [Scalar, List(Scalar), List(Scalar)], Named("R"),
    If(Prim(Eq, Cons(Var("n"), Cons(Lit(NatLit(0)), Nil))),
       Prim(Ctor("R.mk"), Cons(Var("acc"), Nil)),
       Let("s", Prim(Ctor("List.nil"), Nil), Call("f", ShadowingArgs))))

  const ShadowingArgs: Exprs :=
    Cons(Prim(Sub, Cons(Var("n"), Cons(Lit(NatLit(1)), Nil))),
         Cons(Var("s"), Cons(Prim(Append, Cons(Var("acc"), Cons(Prim(Ctor("List.nil"), Nil), Nil))), Nil)))

  /** The accumulator is owned and the raw definition can be lowered, but the borrowed formal
      that is passed on is hidden, so the staged definition has no loop. */
  lemma ShadowingLosesLoop(s: Pipeline.Stages, lx: Lexicon)
    requires s.source == Shadowing && Pipeline.Staged(s, lx)
    ensures var borrowed := [false, true, false];
      && Candidate(Shadowing, 2) && Lowering(Shadowing, borrowed, [true, false, true])
      && !exists marks :: Lowering(s.final, borrowed, marks)
  {
    var borrowed := [false, true, false];
    ShadowingCandidate();
    ShadowingLowers();
    OwnedPlain(Shadowing.body, "acc", 2, "f", false, 3);
    LoopUnexpanded(s, lx, borrowed);
    LoopsExactly(Shadowing, borrowed);
    ShadowingHides(FullPlan(Shadowing, borrowed));
  }

  lemma ShadowingAppendOwned()
    ensures OwnedUses(ShadowingArgs.tail.tail.head, "acc", 2, "f", true)
  {
    var append := ShadowingArgs.tail.tail.head;
    assert OwnedUses(append.args.head, "acc", 2, "f", true);
    assert OwnedUses(append.args.tail.head, "acc", 2, "f", false);
    assert OwnedUsesAll(append.args.tail, "acc", 2, "f", false);
  }

  lemma ShadowingSubOwned()
    ensures OwnedUses(ShadowingArgs.head, "acc", 2, "f", false)
  {
    assert OwnedUsesAll(ShadowingArgs.head.args.tail, "acc", 2, "f", false);
  }

  lemma ShadowingCallOwned()
    ensures OwnedArgs(ShadowingArgs, 0, "acc", 2, "f", "f")
  {
    ShadowingAppendOwned();
    ShadowingSubOwned();
    assert OwnedArgs(ShadowingArgs.tail.tail, 2, "acc", 2, "f", "f");
    assert OwnedArgs(ShadowingArgs.tail, 1, "acc", 2, "f", "f");
  }

  lemma ShadowingOwned()
    ensures OwnedUses(Shadowing.body, "acc", 2, "f", false)
  {
    var b := Shadowing.body;
    assert OwnedUses(b.yes, "acc", 2, "f", false);
    assert OwnedUsesAll(b.cond.args.tail, "acc", 2, "f", false);
    assert OwnedUses(b.cond, "acc", 2, "f", false);
    ShadowingCallOwned();
  }

  lemma ShadowingUses()
    ensures SequentialUses(Shadowing.body, "acc") == 1
  {
    var b := Shadowing.body;
    assert SequentialUses(ShadowingArgs.tail.tail.head, "acc") == 1;
    assert SequentialUsesAll(ShadowingArgs.tail, "acc") == 1;
    assert SequentialUses(b.no, "acc") == 1;
    assert SequentialUses(b.yes, "acc") == 1;
    assert SequentialUsesAll(b.cond.args.tail, "acc") == 0;
    assert SequentialUses(b.cond, "acc") == 0;
  }

  lemma ShadowingCandidate()
    ensures Candidate(Shadowing, 2)
  {
    ShadowingOwned();
    ShadowingUses();
    PathIsSequential(Shadowing.body, "acc", 2, "f", false);
  }

  lemma ShadowingLowers()
    ensures Lowering(Shadowing, [false, true, false], [true, false, true])
  {
    var p := Plan("f", ["n", "s", "acc"], [false, true, false], [true, false, true]);
    ShadowingCallLowers(p);
    ShadowingRestLowers(p);
    var b := Shadowing.body;
    assert Lowers(b, true, p) == (Lowers(b.cond, false, p) && Lowers(b.yes, true, p) && Lowers(b.no, true, p));
  }

  lemma ShadowingRestLowers(p: Plan)
    requires p == Plan("f", ["n", "s", "acc"], [false, true, false], [true, false, true])
    ensures Lowers(Shadowing.body.cond, false, p) && Lowers(Shadowing.body.yes, true, p)
    ensures Lowers(Shadowing.body.no, true, p)
  {
    ShadowingCallLowers(p);
    assert LowersAll(Shadowing.body.cond.args.tail, p);
  }

  lemma ShadowingCallLowers(p: Plan)
    requires p == Plan("f", ["n", "s", "acc"], [false, true, false], [true, false, true])
    ensures LowersArgs(ShadowingArgs, 0, p)
  {
    assert LowersArgs(ShadowingArgs.tail.tail, 2, p);
    assert LowersArgs(ShadowingArgs.tail, 1, p);
  }

  lemma ShadowingHides(p: Plan)
    requires p == FullPlan(Shadowing, [false, true, false])
    ensures !Kept(Shadowing.body, {}, p)
  {
    assert !KeptArgs(ShadowingArgs.tail, 1, {} + {"s"}, p);
    assert !KeptArgs(ShadowingArgs, 0, {} + {"s"}, p);
    assert !Kept(Shadowing.body.no, {}, p);
  }

  // ---- the emitted worker ----

  /** The worker of one definition: owned formals are chosen on the raw definition, the loop
      is planned on the staged one, and without a plan the worker recurses. */
  method RunWorker(m: Machine, stages: map<string, Pipeline.Stages>, lx: Lexicon, f: string, borrowing: seq<bool>,
                   copies: bool, calls: nat, vs: seq<Value>, slices: map<nat, array<Value>>, ghost strict: bool)
    returns (o: Outcome, owned: set<nat>, looped: bool)
    requires Pipeline.AllStaged(m, stages, lx) && m.jumps >= JoinExpansion.MAX_DEPTH
    requires Pipeline.AllClosed(m) && Pipeline.AllTame(m, strict)
    requires f in m.defs && m.defs[f].name == f
    requires |m.defs[f].types| == |m.defs[f].params| == |borrowing| == |vs|
    requires forall i :: 0 <= i < |vs| && m.defs[f].types[i].List? ==> i in slices && vs[i] == Seq(slices[i][..])
    ensures Chosen(m.defs[f], borrowing, copies, owned)
    ensures forall i :: i in owned ==> i < |vs|
    ensures if MovesOnce(m.defs[f], owned) then DeadJoins.Same(strict, Run(m, calls, f, vs), o) else o == Stuck
    ensures looped <==> Repeats(stages[f].expanded, WorkerBorrowed(borrowing, owned))
    ensures JoinFree(m.defs[f].body) ==> (looped <==> Repeats(m.defs[f], WorkerBorrowed(borrowing, owned)))
    ensures owned != {} ==>
      (looped <==> Kept(m.defs[f].body, {}, FullPlan(m.defs[f], WorkerBorrowed(borrowing, owned))))
  {
    var p;
    owned, p := PlanWorker(stages[f], lx, borrowing, copies);
    looped := p.Some?;
    forall i | i in owned
      ensures i < |vs| && m.defs[f].types[i].List?
      ensures Rereads(stages[f].final.body, stages[f].final.params[i]) <==> Rereads(m.defs[f].body, m.defs[f].params[i])
    {
      assert Candidate(m.defs[f], i);
      StagedCandidate(stages[f], lx, i);
    }
    o := RunStaged(m, stages, lx, f, p, owned, calls, vs, slices, strict);
  }

  /** The staged worker gives what the source definition gives, if the compiler accepts it. */
  method RunStaged(m: Machine, stages: map<string, Pipeline.Stages>, lx: Lexicon, f: string, p: Option<Plan>,
                   owned: set<nat>, calls: nat, vs: seq<Value>, slices: map<nat, array<Value>>, ghost strict: bool)
    returns (o: Outcome)
    requires Pipeline.AllStaged(m, stages, lx) && m.jumps >= JoinExpansion.MAX_DEPTH
    requires Pipeline.AllClosed(m) && Pipeline.AllTame(m, strict)
    requires f in m.defs && m.defs[f].name == f && |m.defs[f].types| == |m.defs[f].params| == |vs|
    requires var d := stages[f].final;
      && d.name == f && |d.types| == |d.params| == |vs| && Distinct(d.params)
      && (p.Some? ==> Planned(Pipeline.Final(m, stages), p.value) && p.value.name == f)
      && (owned != {} ==> Owned(d, owned))
    requires forall i :: i in owned ==> i in slices && i < |vs| && vs[i] == Seq(slices[i][..])
    ensures if MovesOnce(stages[f].final, owned) then DeadJoins.Same(strict, Run(m, calls, f, vs), o) else o == Stuck
  {
    Pipeline.PipelineRefinesRuns(m, stages, lx, calls, f, vs, strict);
    o := RunPlanned(Pipeline.Final(m, stages), f, p, owned, calls, vs, slices);
  }

  /** Ownership from the raw definition, the plan from the staged one. */
  method PlanWorker(s: Pipeline.Stages, lx: Lexicon, borrowing: seq<bool>, copies: bool)
    returns (owned: set<nat>, p: Option<Plan>)
    requires Pipeline.Staged(s, lx) && NamingMeaning.Closed(s.source)
    requires |s.source.types| == |s.source.params| == |borrowing|
    ensures Chosen(s.source, borrowing, copies, owned)
    ensures |s.final.types| == |s.final.params| == |borrowing| && Distinct(s.final.params)
    ensures owned != {} ==> Owned(s.final, owned)
    ensures p.Some? ==>
      && p.value.Valid() && p.value.name == s.final.name && p.value.params == s.final.params
      && JoinFree(s.final.body) && Unhidden(Bound(s.final.body), p.value) && Lowers(s.final.body, true, p.value)
    ensures p.Some? <==> Repeats(s.expanded, WorkerBorrowed(borrowing, owned))
    ensures JoinFree(s.source.body) ==> (p.Some? <==> Repeats(s.source, WorkerBorrowed(borrowing, owned)))
    ensures owned != {} ==>
      (p.Some? <==> Kept(s.source.body, {}, FullPlan(s.source, WorkerBorrowed(borrowing, owned))))
  {
    owned := Parameters(s.source, borrowing, copies);
    FinalPlannable(s, lx);
    var borrowed := WorkerBorrowed(borrowing, owned);
    p := MakePlan(s.final, borrowed);
    PlanLowers(s.final, borrowed, p);
    LoopedExactly(s, lx, borrowed, p.Some?);
    forall i | i in owned
      ensures Candidate(s.final, i)
    {
      StagedCandidate(s, lx, i);
    }
    if owned != {} {
      OwnedLoopedExactly(s, lx, borrowing, copies, owned, p.Some?);
    }
  }

  /** A self call, and a body that loops. */
  predicate Repeats(d: Definition, borrowed: seq<bool>)
    requires |borrowed| == |d.params|
  {
    !NoSelfCall(d.body, d.name) && Loops(d.body, true, {}, FullPlan(d, borrowed))
  }

  /** What the planner reports. */
  ghost predicate Found(d: Definition, borrowed: seq<bool>, looped: bool)
    requires |borrowed| == |d.params|
  {
    looped <==> !NoSelfCall(d.body, d.name) && exists marks :: Lowering(d, borrowed, marks)
  }

  lemma PlanLowers(d: Definition, borrowed: seq<bool>, p: Option<Plan>)
    requires |borrowed| == |d.params|
    requires p.None? ==> forall marks :: Lowering(d, borrowed, marks) ==> NoSelfCall(d.body, d.name)
    requires p.Some? ==>
      && p.value == Plan(d.name, d.params, borrowed, p.value.changed) && p.value.Valid()
      && Lowers(d.body, true, p.value) && !NoSelfCall(d.body, d.name)
    ensures Found(d, borrowed, p.Some?)
  {
    if p.Some? {
      assert Lowering(d, borrowed, p.value.changed);
    }
  }

  lemma FinalPlannable(s: Pipeline.Stages, lx: Lexicon)
    requires Pipeline.Staged(s, lx) && NamingMeaning.Closed(s.source)
    ensures JoinFree(s.final.body) && Distinct(s.final.params) && |s.final.params| == |s.source.params|
    ensures forall x :: x in s.final.params ==> V(x) !in Bound(s.final.body)
    ensures s.final.types == s.source.types && s.final.name == s.source.name
  {
    NamingMeaning.HygienicIsUnique(s.final, lx);
    Pipeline.FinalIsJoinFree(s, lx);
  }

  /** The staged worker: its loop if there is a plan, over buffers for the owned formals. */
  method RunPlanned(m: Machine, f: string, p: Option<Plan>, owned: set<nat>, calls: nat, vs: seq<Value>,
                    slices: map<nat, array<Value>>)
    returns (o: Outcome)
    requires f in m.defs && m.defs[f].name == f && |m.defs[f].types| == |m.defs[f].params| == |vs|
    requires Distinct(m.defs[f].params) && (p.Some? ==> Planned(m, p.value) && p.value.name == f)
    requires owned != {} ==> Owned(m.defs[f], owned)
    requires forall i :: i in owned ==> i in slices && i < |vs| && vs[i] == Seq(slices[i][..])
    ensures o == if MovesOnce(m.defs[f], owned) then Run(m, calls, f, vs) else Stuck
  {
    if owned == {} {
      if p.Some? {
        o := RunLoop(m, p.value, calls, vs);
      } else {
        o := Run(m, calls, f, vs);
      }
    } else if p.Some? {
      o := RunOwned(m, p.value, owned, calls, vs, slices);
    } else {
      o := RunOnce(m, f, owned, calls, vs, slices);
    }
  }

  /** The worker has a loop exactly when there is a self call and the expanded body loops. */
  lemma LoopedExactly(s: Pipeline.Stages, lx: Lexicon, borrowed: seq<bool>, looped: bool)
    requires Pipeline.Staged(s, lx) && NamingMeaning.Closed(s.source)
        && |borrowed| == |s.source.params| == |s.final.params|
    requires Found(s.final, borrowed, looped)
    ensures |s.expanded.params| == |borrowed|
    ensures looped <==> Repeats(s.expanded, borrowed)
    ensures JoinFree(s.source.body) ==> (looped <==> Repeats(s.source, borrowed))
  {
    LoopSurvives(s, lx, borrowed);
    StagedSelfCall(s, lx);
    if JoinFree(s.source.body) {
      LoopUnexpanded(s, lx, borrowed);
      UnexpandedSelfCall(s, lx);
    }
  }

  lemma OwnedLoopedExactly(s: Pipeline.Stages, lx: Lexicon, borrowing: seq<bool>, copies: bool, owned: set<nat>,
                           looped: bool)
    requires Pipeline.Staged(s, lx) && |s.source.types| == |s.source.params| == |borrowing| == |s.final.params|
    requires Chosen(s.source, borrowing, copies, owned) && owned != {}
    requires Found(s.final, WorkerBorrowed(borrowing, owned), looped)
    ensures looped <==> Kept(s.source.body, {}, FullPlan(s.source, WorkerBorrowed(borrowing, owned)))
  {
    OwnedLoopSurvives(s, lx, borrowing, copies, owned);
    var i :| i in owned;
    assert Accepted(s.source, borrowing, copies, i);
    OwnedPlain(s.source.body, s.source.params[i], i, s.source.name, false, |s.source.params|);
    StagedSelfCall(s, lx);
    UnexpandedSelfCall(s, lx);
  }
}
