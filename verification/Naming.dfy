/** Alpha-normalisation of one definition (`naming.rs`).

    `Names` is the mutable state of the pass.  `Rewrite` is proved to produce a term
    related to its input by `Renamed`, whose binders have pairwise distinct collision
    keys, and to leave an already hygienic term alone.
 */
module Naming {
  import opened Ir
  import opened Wrappers
  import opened Semantics

  // ---- fresh names ----

  function Digit(d: nat): char
    requires d < 10
  {
    ('0' as int + d) as char
  }

  function Decimal(n: nat): string {
    if n < 10 then [Digit(n)] else Decimal(n / 10) + [Digit(n % 10)]
  }

  function Fresh(n: nat): string {
    "prod_local_" + Decimal(n)
  }

  lemma {:induction false} DecimalInjective(a: nat, b: nat)
    requires Decimal(a) == Decimal(b)
    ensures a == b
    decreases a + b
  {
    var s, t := Decimal(a), Decimal(b);
    assert s[|s| - 1] == Digit(a % 10) && t[|t| - 1] == Digit(b % 10);
    assert a >= 10 ==> s[..|s| - 1] == Decimal(a / 10) && |Decimal(a / 10)| > 0;
    assert b >= 10 ==> t[..|t| - 1] == Decimal(b / 10) && |Decimal(b / 10)| > 0;
    if a >= 10 && b >= 10 {
      DecimalInjective(a / 10, b / 10);
    }
  }

  lemma FreshInjective(a: nat, b: nat)
    requires Fresh(a) == Fresh(b)
    ensures a == b
  {
    var p := "prod_local_";
    assert Fresh(a)[|p|..] == Decimal(a) && Fresh(b)[|p|..] == Decimal(b);
    DecimalInjective(a, b);
  }

  // ---- what the target language says about names ----

  /** `key`: the NFC form of the rendered identifier; `valid`: a bindable identifier;
      `temporary`: an indexed builder temporary; `emitted`: the name a call renders as;
      `declared`: a constructor of a generated type or a dotted one. */
  datatype Lexicon = Lexicon(
    key: string -> string,
    valid: string -> bool,
    temporary: string -> bool,
    emitted: string -> string,
    declared: string -> bool)

  /** Fresh names are plain identifiers, their own key, and no temporaries. */
  ghost predicate Sane(lx: Lexicon) {
    forall n: nat :: lx.key(Fresh(n)) == Fresh(n) && lx.valid(Fresh(n)) && !lx.temporary(Fresh(n))
  }

  /** The spellings one definition allows for its binders. */
  datatype Alphabet = Alphabet(lx: Lexicon, protected: set<string>, buffer: bool)

  /** What one definition fixes before its binders are renamed. */
  datatype Rules = Rules(a: Alphabet, reserved: set<string>)

  /** A name the source term does not mention. */
  predicate Unmentioned(x: string, r: Rules) {
    r.a.lx.key(x) !in r.reserved
  }

  /** A binder that may keep its spelling, collisions aside. */
  predicate Admissible(x: string, a: Alphabet) {
    a.lx.valid(x) && a.lx.key(x) !in a.protected && !(a.buffer && a.lx.temporary(x))
  }

  // ---- the renaming relation ----

  /** `x'` may stand for a new binder `x` where `scope` and `formals` are visible. */
  ghost predicate Stands(x: string, x': string, scope: map<string, string>, formals: seq<string>, r: Rules) {
    && (x' == x || Unmentioned(x', r))
    && x' !in formals
    && (forall y :: y in scope ==> scope[y] != x')
  }

  ghost predicate StandAll(xs: seq<string>, xs': seq<string>, scope: map<string, string>, formals: seq<string>,
                           r: Rules)
  {
    && |xs| == |xs'| && Distinct(xs) && Distinct(xs')
    && (forall i :: 0 <= i < |xs| ==> Stands(xs[i], xs'[i], scope, formals, r))
  }

  function Image(x: string, scope: map<string, string>): string {
    if x in scope then scope[x] else x
  }

  /** An occurrence is renamed with its binder; an unbound one is a mentioned name. */
  ghost predicate Refers(x: string, x': string, scope: map<string, string>, r: Rules) {
    x' == Image(x, scope) && (x in scope || !Unmentioned(x, r))
  }

  ghost predicate Renamed(e: Expr, e': Expr, vars: map<string, string>, joins: map<string, string>,
                          formals: seq<string>, r: Rules)
  {
    match e
    case Lit(_) => e' == e
    case Var(x) => e'.Var? && Refers(x, e'.name, vars, r)
    case Param(i) => e' == if i < |formals| then Var(formals[i]) else e
    case Prim(op, es) => e'.Prim? && e'.op == op && RenamedAll(es, e'.args, vars, joins, formals, r)
    case If(c, t, f) =>
      && e'.If?
      && Renamed(c, e'.cond, vars, joins, formals, r)
      && Renamed(t, e'.yes, vars, joins, formals, r)
      && Renamed(f, e'.no, vars, joins, formals, r)
    case Let(x, v, b) =>
      && e'.Let?
      && (v.Jp? <==> e'.value.Jp?)
      && Renamed(v, e'.value, vars, joins, formals, r)
      && Stands(x, e'.name, vars, formals, r)
      && Renamed(b, e'.body, vars[x := e'.name], Visibly(v, e'.value, joins), formals, r)
    case Match(s, alts) =>
      && e'.Match?
      && Renamed(s, e'.scrut, vars, joins, formals, r)
      && RenamedAlts(alts, e'.alts, vars, joins, formals, r)
    case Call(f, es) => e'.Call? && e'.callee == f && RenamedAll(es, e'.args, vars, joins, formals, r)
    case Jp(l, ps, c) =>
      && e'.Jp?
      && Stands(l, e'.target, joins, [], r)
      && StandAll(ps, e'.params, vars, formals, r)
      && Renamed(c, e'.cont, Bind(ps, e'.params, vars), joins[l := e'.target], formals, r)
    case Jmp(l, es) =>
      e'.Jmp? && Refers(l, e'.target, joins, r) && RenamedAll(es, e'.args, vars, joins, formals, r)
    case Unreachable => e' == e
  }

  function Visibly(v: Expr, v': Expr, joins: map<string, string>): map<string, string> {
    if v.Jp? && v'.Jp? then joins[v.target := v'.target] else joins
  }

  ghost predicate RenamedAll(es: Exprs, es': Exprs, vars: map<string, string>, joins: map<string, string>,
                             formals: seq<string>, r: Rules)
  {
    match es
    case Nil => es' == Nil
    case Cons(e, tail) =>
      && es'.Cons?
      && Renamed(e, es'.head, vars, joins, formals, r)
      && RenamedAll(tail, es'.tail, vars, joins, formals, r)
  }

  ghost predicate RenamedAlts(alts: Alts, alts': Alts, vars: map<string, string>, joins: map<string, string>,
                              formals: seq<string>, r: Rules)
  {
    match alts
    case NoMore => alts' == NoMore
    case Default(b) => alts'.Default? && Renamed(b, alts'.otherwise, vars, joins, formals, r)
    case Alt(c, bs, b, rest) =>
      && alts'.Alt? && alts'.ctor == c
      && StandAll(bs, alts'.binders, vars, formals, r)
      && Renamed(b, alts'.body, Bind(bs, alts'.binders, vars), joins, formals, r)
      && RenamedAlts(rest, alts'.rest, vars, joins, formals, r)
  }

  // ---- collision keys of binders ----

  function KeysOf(xs: seq<string>, lx: Lexicon): set<string> {
    set x | x in xs :: lx.key(x)
  }

  function Keys(e: Expr, lx: Lexicon): set<string> {
    match e
    case Lit(_) => {}
    case Var(_) => {}
    case Param(_) => {}
    case Prim(_, es) => KeysAll(es, lx)
    case If(c, t, f) => Keys(c, lx) + Keys(t, lx) + Keys(f, lx)
    case Let(x, v, b) => {lx.key(x)} + Keys(v, lx) + Keys(b, lx)
    case Match(s, alts) => Keys(s, lx) + KeysAlts(alts, lx)
    case Call(_, es) => KeysAll(es, lx)
    case Jp(l, ps, c) => {lx.key(l)} + KeysOf(ps, lx) + Keys(c, lx)
    case Jmp(_, es) => KeysAll(es, lx)
    case Unreachable => {}
  }

  function KeysAll(es: Exprs, lx: Lexicon): set<string> {
    match es
    case Nil => {}
    case Cons(e, tail) => Keys(e, lx) + KeysAll(tail, lx)
  }

  function KeysAlts(alts: Alts, lx: Lexicon): set<string> {
    match alts
    case NoMore => {}
    case Default(b) => Keys(b, lx)
    case Alt(_, bs, b, rest) => KeysOf(bs, lx) + Keys(b, lx) + KeysAlts(rest, lx)
  }

  predicate DistinctKeys(xs: seq<string>, lx: Lexicon) {
    forall i, k :: 0 <= i < k < |xs| ==> lx.key(xs[i]) != lx.key(xs[k])
  }

  predicate AdmissibleAll(xs: seq<string>, a: Alphabet) {
    forall x :: x in xs ==> Admissible(x, a)
  }

  /** Binders have pairwise distinct keys, a let sharing its join label excepted, and each
      may keep its spelling. */
  predicate Clean(e: Expr, a: Alphabet) {
    match e
    case Lit(_) => true
    case Var(_) => true
    case Param(_) => true
    case Prim(_, es) => CleanAll(es, a)
    case If(c, t, f) =>
      Clean(c, a) && Clean(t, a) && Clean(f, a) && Keys(c, a.lx) !! Keys(t, a.lx) !! Keys(f, a.lx)
    case Let(x, v, b) =>
      && Clean(v, a) && Clean(b, a) && Admissible(x, a)
      && Keys(v, a.lx) !! Keys(b, a.lx)
      && a.lx.key(x) !in Keys(b, a.lx)
      && (a.lx.key(x) !in Keys(v, a.lx) || OwnLabel(x, v, a.lx))
    case Match(s, alts) => Clean(s, a) && CleanAlts(alts, a) && Keys(s, a.lx) !! KeysAlts(alts, a.lx)
    case Call(_, es) => CleanAll(es, a)
    case Jp(l, ps, c) =>
      && Clean(c, a) && Admissible(l, a) && AdmissibleAll(ps, a) && DistinctKeys(ps, a.lx)
      && {a.lx.key(l)} !! KeysOf(ps, a.lx) !! Keys(c, a.lx)
    case Jmp(_, es) => CleanAll(es, a)
    case Unreachable => true
  }

  predicate OwnLabel(x: string, v: Expr, lx: Lexicon) {
    && v.Jp? && v.target == x
    && lx.key(x) !in KeysOf(v.params, lx) + Keys(v.cont, lx)
  }

  predicate CleanAll(es: Exprs, a: Alphabet) {
    match es
    case Nil => true
    case Cons(e, tail) => Clean(e, a) && CleanAll(tail, a) && Keys(e, a.lx) !! KeysAll(tail, a.lx)
  }

  predicate CleanAlts(alts: Alts, a: Alphabet) {
    match alts
    case NoMore => true
    case Default(b) => Clean(b, a)
    case Alt(_, bs, b, rest) =>
      && Clean(b, a) && CleanAlts(rest, a) && AdmissibleAll(bs, a) && DistinctKeys(bs, a.lx)
      && KeysOf(bs, a.lx) !! Keys(b, a.lx) !! KeysAlts(rest, a.lx)
  }

  // ---- positional references ----

  /** No positional reference to one of the first `n` formals is left. */
  predicate NoParam(e: Expr, n: nat) {
    match e
    case Lit(_) => true
    case Var(_) => true
    case Param(i) => i >= n
    case Prim(_, es) => NoParamAll(es, n)
    case If(c, t, f) => NoParam(c, n) && NoParam(t, n) && NoParam(f, n)
    case Let(_, v, b) => NoParam(v, n) && NoParam(b, n)
    case Match(s, alts) => NoParam(s, n) && NoParamAlts(alts, n)
    case Call(_, es) => NoParamAll(es, n)
    case Jp(_, _, c) => NoParam(c, n)
    case Jmp(_, es) => NoParamAll(es, n)
    case Unreachable => true
  }

  predicate NoParamAll(es: Exprs, n: nat) {
    match es
    case Nil => true
    case Cons(e, tail) => NoParam(e, n) && NoParamAll(tail, n)
  }

  predicate NoParamAlts(alts: Alts, n: nat) {
    match alts
    case NoMore => true
    case Default(b) => NoParam(b, n)
    case Alt(_, _, b, rest) => NoParam(b, n) && NoParamAlts(rest, n)
  }

  // ---- mentioned names ----

  /** Keys of every occurrence and binder, as `original_names` collects them. */
  function MentionKeys(e: Expr, lx: Lexicon): set<string> {
    match e
    case Lit(_) => {}
    case Var(x) => {lx.key(x)}
    case Param(_) => {}
    case Prim(_, es) => MentionKeysAll(es, lx)
    case If(c, t, f) => MentionKeys(c, lx) + MentionKeys(t, lx) + MentionKeys(f, lx)
    case Let(x, v, b) => {lx.key(x)} + MentionKeys(v, lx) + MentionKeys(b, lx)
    case Match(s, alts) => MentionKeys(s, lx) + MentionKeysAlts(alts, lx)
    case Call(_, es) => MentionKeysAll(es, lx)
    case Jp(l, ps, c) => {lx.key(l)} + KeysOf(ps, lx) + MentionKeys(c, lx)
    case Jmp(l, es) => {lx.key(l)} + MentionKeysAll(es, lx)
    case Unreachable => {}
  }

  function MentionKeysAll(es: Exprs, lx: Lexicon): set<string> {
    match es
    case Nil => {}
    case Cons(e, tail) => MentionKeys(e, lx) + MentionKeysAll(tail, lx)
  }

  function MentionKeysAlts(alts: Alts, lx: Lexicon): set<string> {
    match alts
    case NoMore => {}
    case Default(b) => MentionKeys(b, lx)
    case Alt(_, bs, b, rest) => KeysOf(bs, lx) + MentionKeys(b, lx) + MentionKeysAlts(rest, lx)
  }

  predicate Mentions(e: Expr, r: Rules) {
    MentionKeys(e, r.a.lx) <= r.reserved
  }

  predicate MentionsAll(es: Exprs, r: Rules) {
    MentionKeysAll(es, r.a.lx) <= r.reserved
  }

  predicate MentionsAlts(alts: Alts, r: Rules) {
    MentionKeysAlts(alts, r.a.lx) <= r.reserved
  }

  // ---- binding groups ----

  /** Names bound together are distinct; nothing else makes the pass fail. */
  predicate Grouped(e: Expr) {
    match e
    case Lit(_) => true
    case Var(_) => true
    case Param(_) => true
    case Prim(_, es) => GroupedAll(es)
    case If(c, t, f) => Grouped(c) && Grouped(t) && Grouped(f)
    case Let(_, v, b) => Grouped(v) && Grouped(b)
    case Match(s, alts) => Grouped(s) && GroupedAlts(alts)
    case Call(_, es) => GroupedAll(es)
    case Jp(_, ps, c) => Distinct(ps) && Grouped(c)
    case Jmp(_, es) => GroupedAll(es)
    case Unreachable => true
  }

  predicate GroupedAll(es: Exprs) {
    match es
    case Nil => true
    case Cons(e, tail) => Grouped(e) && GroupedAll(tail)
  }

  predicate GroupedAlts(alts: Alts) {
    match alts
    case NoMore => true
    case Default(b) => Grouped(b)
    case Alt(_, bs, b, rest) => Distinct(bs) && Grouped(b) && GroupedAlts(rest)
  }

  // ---- tracked identity ----

  function CarriedName(x: string, y: string, sources: set<string>): set<string> {
    if x in sources then {y} else {}
  }

  function CarriedNames(xs: seq<string>, ys: seq<string>, sources: set<string>): set<string> {
    set i | 0 <= i < |xs| && i < |ys| && xs[i] in sources :: ys[i]
  }

  /** What the binders of a term spelled like a tracked source are called in its renaming. */
  function Carried(e: Expr, e': Expr, sources: set<string>): set<string> {
    match e
    case Lit(_) => {}
    case Var(_) => {}
    case Param(_) => {}
    case Prim(_, es) => if e'.Prim? then CarriedAll(es, e'.args, sources) else {}
    case If(c, t, f) =>
      if e'.If? then Carried(c, e'.cond, sources) + Carried(t, e'.yes, sources) + Carried(f, e'.no, sources) else {}
    case Let(x, v, b) =>
      if e'.Let? then
        CarriedName(x, e'.name, sources) + Carried(v, e'.value, sources) + Carried(b, e'.body, sources)
      else {}
    case Match(s, alts) =>
      if e'.Match? then Carried(s, e'.scrut, sources) + CarriedAlts(alts, e'.alts, sources) else {}
    case Call(_, es) => if e'.Call? then CarriedAll(es, e'.args, sources) else {}
    case Jp(l, ps, c) =>
      if e'.Jp? then
        CarriedName(l, e'.target, sources) + CarriedNames(ps, e'.params, sources) + Carried(c, e'.cont, sources)
      else {}
    case Jmp(_, es) => if e'.Jmp? then CarriedAll(es, e'.args, sources) else {}
    case Unreachable => {}
  }

  function CarriedAll(es: Exprs, es': Exprs, sources: set<string>): set<string> {
    match es
    case Nil => {}
    case Cons(e, tail) =>
      if es'.Cons? then Carried(e, es'.head, sources) + CarriedAll(tail, es'.tail, sources) else {}
  }

  function CarriedAlts(alts: Alts, alts': Alts, sources: set<string>): set<string> {
    match alts
    case NoMore => {}
    case Default(b) => if alts'.Default? then Carried(b, alts'.otherwise, sources) else {}
    case Alt(_, bs, b, rest) =>
      if alts'.Alt? then
        CarriedNames(bs, alts'.binders, sources) + Carried(b, alts'.body, sources)
          + CarriedAlts(rest, alts'.rest, sources)
      else {}
  }

  lemma CarriedSnoc(xs: seq<string>, x: string, ys: seq<string>, y: string, sources: set<string>)
    requires |xs| == |ys|
    ensures CarriedNames(xs + [x], ys + [y], sources) == CarriedNames(xs, ys, sources) + CarriedName(x, y, sources)
  {
    var xs', ys' := xs + [x], ys + [y];
    forall z
      ensures z in CarriedNames(xs', ys', sources) <==> z in CarriedNames(xs, ys, sources) + CarriedName(x, y, sources)
    {
      if i :| 0 <= i < |xs| && xs[i] in sources && ys[i] == z {
        assert xs'[i] == xs[i] && ys'[i] == ys[i];
      }
      if x in sources && y == z {
        assert xs'[|xs|] == x && ys'[|xs|] == y;
      }
    }
  }

  lemma Gather(t0: set<string>, a: set<string>, t1: set<string>, b: set<string>, t2: set<string>, whole: set<string>)
    requires t1 == t0 + a && t2 == t1 + b && whole == a + b
    ensures t2 == t0 + whole
  {}

  // ---- the pass ----

  datatype Error = DuplicateBinding

  ghost predicate Identity(scope: map<string, string>) {
    forall x :: x in scope ==> scope[x] == x
  }

  // ---- results of a rewrite ----

  /** A renamed, clean result whose keys are exactly those newly used. */
  ghost predicate Output(e: Expr, e': Expr, vars: map<string, string>, joins: map<string, string>,
                         formals: seq<string>, r: Rules, before: set<string>, after: set<string>)
  {
    && Renamed(e, e', vars, joins, formals, r)
    && Clean(e', r.a) && NoParam(e', |formals|)
    && Keys(e', r.a.lx) !! before && after == before + Keys(e', r.a.lx)
  }

  /** Nothing to rename. */
  ghost predicate Settled(e: Expr, vars: map<string, string>, joins: map<string, string>,
                          formals: seq<string>, r: Rules, before: set<string>)
  {
    && Clean(e, r.a) && NoParam(e, |formals|) && Keys(e, r.a.lx) !! before
    && Identity(vars) && Identity(joins)
  }

  /** A renamed, clean result whose keys are exactly those newly used. */
  ghost predicate OutputAll(es: Exprs, es': Exprs, vars: map<string, string>, joins: map<string, string>,
                         formals: seq<string>, r: Rules, before: set<string>, after: set<string>)
  {
    && RenamedAll(es, es', vars, joins, formals, r)
    && CleanAll(es', r.a) && NoParamAll(es', |formals|)
    && KeysAll(es', r.a.lx) !! before && after == before + KeysAll(es', r.a.lx)
  }

  /** Nothing to rename. */
  ghost predicate SettledAll(es: Exprs, vars: map<string, string>, joins: map<string, string>,
                          formals: seq<string>, r: Rules, before: set<string>)
  {
    && CleanAll(es, r.a) && NoParamAll(es, |formals|) && KeysAll(es, r.a.lx) !! before
    && Identity(vars) && Identity(joins)
  }

  /** A renamed, clean result whose keys are exactly those newly used. */
  ghost predicate OutputAlts(alts: Alts, alts': Alts, vars: map<string, string>, joins: map<string, string>,
                         formals: seq<string>, r: Rules, before: set<string>, after: set<string>)
  {
    && RenamedAlts(alts, alts', vars, joins, formals, r)
    && CleanAlts(alts', r.a) && NoParamAlts(alts', |formals|)
    && KeysAlts(alts', r.a.lx) !! before && after == before + KeysAlts(alts', r.a.lx)
  }

  /** Nothing to rename. */
  ghost predicate SettledAlts(alts: Alts, vars: map<string, string>, joins: map<string, string>,
                          formals: seq<string>, r: Rules, before: set<string>)
  {
    && CleanAlts(alts, r.a) && NoParamAlts(alts, |formals|) && KeysAlts(alts, r.a.lx) !! before
    && Identity(vars) && Identity(joins)
  }

  /** A binding group renamed to admissible names with new keys. */
  ghost predicate Group(xs: seq<string>, ys: seq<string>, vars: map<string, string>, formals: seq<string>,
                        r: Rules, before: set<string>, after: set<string>)
  {
    && StandAll(xs, ys, vars, formals, r)
    && KeysOf(ys, r.a.lx) !! before && after == before + KeysOf(ys, r.a.lx)
    && AdmissibleAll(ys, r.a) && DistinctKeys(ys, r.a.lx)
  }

  ghost predicate SettledGroup(xs: seq<string>, r: Rules, before: set<string>) {
    AdmissibleAll(xs, r.a) && DistinctKeys(xs, r.a.lx) && KeysOf(xs, r.a.lx) !! before
  }

  ghost predicate SettledDefinition(d: Definition, r: Rules) {
    && SettledGroup(d.params, r, {})
    && Settled(d.body, Bind(d.params, d.params, map[]), map[], d.params, r, KeysOf(d.params, r.a.lx))
  }

  lemma GroupSnoc(xs: seq<string>, x: string, ys: seq<string>, y: string, vars: map<string, string>,
                  formals: seq<string>, r: Rules, before: set<string>, mid: set<string>)
    requires Group(xs, ys, vars, formals, r, before, mid)
    requires x !in xs && Stands(x, y, vars, formals, r) && Admissible(y, r.a) && r.a.lx.key(y) !in mid
    ensures Group(xs + [x], ys + [y], vars, formals, r, before, mid + {r.a.lx.key(y)})
  {
    assert forall z :: z in ys + [y] <==> z in ys || z == y;
    assert KeysOf(ys + [y], r.a.lx) == KeysOf(ys, r.a.lx) + {r.a.lx.key(y)};
    forall k | 0 <= k < |ys|
      ensures r.a.lx.key(ys[k]) != r.a.lx.key(y)
    {
      assert r.a.lx.key(ys[k]) in KeysOf(ys, r.a.lx);
    }
  }

  lemma SettledKeys(xs: seq<string>, i: nat, r: Rules, before: set<string>)
    requires i < |xs|
    ensures SettledGroup(xs, r, before) ==>
      Admissible(xs[i], r.a) && r.a.lx.key(xs[i]) !in before + KeysOf(xs[..i], r.a.lx)
  {
    assert r.a.lx.key(xs[i]) in KeysOf(xs, r.a.lx);
    if SettledGroup(xs, r, before) {
      forall x | x in xs[..i]
        ensures r.a.lx.key(x) != r.a.lx.key(xs[i])
      {
        var k: nat :| k < i && xs[k] == x;
      }
    }
  }

  lemma IfOutput(e: Expr, c': Expr, t': Expr, f': Expr, vars: map<string, string>, joins: map<string, string>,
                 formals: seq<string>, r: Rules, before: set<string>, mid: set<string>, mid': set<string>,
                 after: set<string>)
    requires e.If? && Output(e.cond, c', vars, joins, formals, r, before, mid)
    requires Output(e.yes, t', vars, joins, formals, r, mid, mid')
    requires Output(e.no, f', vars, joins, formals, r, mid', after)
    ensures Output(e, If(c', t', f'), vars, joins, formals, r, before, after)
  {
  }

  lemma IfSettled(e: Expr, vars: map<string, string>, joins: map<string, string>, formals: seq<string>,
                  r: Rules, before: set<string>)
    requires e.If? && Settled(e, vars, joins, formals, r, before)
    ensures Settled(e.cond, vars, joins, formals, r, before)
    ensures Settled(e.yes, vars, joins, formals, r, before + Keys(e.cond, r.a.lx))
    ensures Settled(e.no, vars, joins, formals, r, before + Keys(e.cond, r.a.lx) + Keys(e.yes, r.a.lx))
  {
  }

  lemma MatchOutput(e: Expr, s': Expr, alts': Alts, vars: map<string, string>, joins: map<string, string>,
                    formals: seq<string>, r: Rules, before: set<string>, mid: set<string>, after: set<string>)
    requires e.Match? && Output(e.scrut, s', vars, joins, formals, r, before, mid)
    requires OutputAlts(e.alts, alts', vars, joins, formals, r, mid, after)
    ensures Output(e, Match(s', alts'), vars, joins, formals, r, before, after)
  {
  }

  lemma JoinOutput(l: string, l': string, ps: seq<string>, ps': seq<string>, c: Expr, c': Expr,
                   vars: map<string, string>, joins: map<string, string>, formals: seq<string>, r: Rules,
                   before: set<string>, mid: set<string>, after: set<string>)
    requires Stands(l, l', joins, [], r) && Admissible(l', r.a) && r.a.lx.key(l') !in before
    requires Group(ps, ps', vars, formals, r, before + {r.a.lx.key(l')}, mid)
    requires Output(c, c', Bind(ps, ps', vars), joins[l := l'], formals, r, mid, after)
    ensures Output(Jp(l, ps, c), Jp(l', ps', c'), vars, joins, formals, r, before, after)
  {
  }

  /** A let name and the join it declares, one binder if they were spelled alike. */
  ghost predicate Declares(e: Expr, x': string, v': Expr, vars: map<string, string>, joins: map<string, string>,
                           formals: seq<string>, r: Rules, before: set<string>, after: set<string>)
    requires e.Let? && e.value.Jp?
  {
    && v'.Jp?
    && Stands(e.name, x', vars, formals, r) && Admissible(x', r.a) && r.a.lx.key(x') !in before
    && if e.name == e.value.target then
         x' == v'.target && Output(e.value, v', vars, joins, formals, r, before, after)
       else Output(e.value, v', vars, joins, formals, r, before + {r.a.lx.key(x')}, after)
  }

  lemma DeclaresKeys(e: Expr, x': string, v': Expr, vars: map<string, string>, joins: map<string, string>,
                     formals: seq<string>, r: Rules, before: set<string>, after: set<string>)
    requires e.Let? && e.value.Jp? && Declares(e, x', v', vars, joins, formals, r, before, after)
    ensures before <= after && r.a.lx.key(x') in after && r.a.lx.key(v'.target) in after
  {}

  lemma LetJoinOutput(e: Expr, x': string, v': Expr, b': Expr,
                      vars: map<string, string>, joins: map<string, string>, formals: seq<string>, r: Rules,
                      before: set<string>, mid: set<string>, after: set<string>)
    requires e.Let? && e.value.Jp? && Declares(e, x', v', vars, joins, formals, r, before, mid)
    requires Output(e.body, b', vars[e.name := x'], joins[e.value.target := v'.target], formals, r, mid, after)
    ensures Output(e, Let(x', v', b'), vars, joins, formals, r, before, after)
  {
    var e' := Let(x', v', b');
    assert Keys(e', r.a.lx) == {r.a.lx.key(x')} + Keys(v', r.a.lx) + Keys(b', r.a.lx);
    assert r.a.lx.key(x') in mid;
  }

  lemma AltOutput(c: string, bs: seq<string>, bs': seq<string>, b: Expr, b': Expr, rest: Alts, rest': Alts,
                  vars: map<string, string>, joins: map<string, string>, formals: seq<string>, r: Rules,
                  before: set<string>, mid: set<string>, mid': set<string>, after: set<string>)
    requires Group(bs, bs', vars, formals, r, before, mid)
    requires Output(b, b', Bind(bs, bs', vars), joins, formals, r, mid, mid')
    requires OutputAlts(rest, rest', vars, joins, formals, r, mid', after)
    ensures OutputAlts(Alt(c, bs, b, rest), Alt(c, bs', b', rest'), vars, joins, formals, r, before, after)
  {
  }

  lemma JoinSettled(e: Expr, vars: map<string, string>, joins: map<string, string>, formals: seq<string>,
                    r: Rules, before: set<string>)
    requires e.Jp? && Settled(e, vars, joins, formals, r, before)
    ensures SettledGroup(e.params, r, before + {r.a.lx.key(e.target)})
    ensures Settled(e.cont, Bind(e.params, e.params, vars), joins[e.target := e.target], formals, r,
                    before + {r.a.lx.key(e.target)} + KeysOf(e.params, r.a.lx))
  {
    BindIdentity(e.params, vars);
  }

  lemma AltSettled(alts: Alts, vars: map<string, string>, joins: map<string, string>, formals: seq<string>,
                   r: Rules, before: set<string>)
    requires alts.Alt? && SettledAlts(alts, vars, joins, formals, r, before)
    ensures SettledGroup(alts.binders, r, before)
    ensures Settled(alts.body, Bind(alts.binders, alts.binders, vars), joins, formals, r,
                    before + KeysOf(alts.binders, r.a.lx))
    ensures SettledAlts(alts.rest, vars, joins, formals, r,
                        before + KeysOf(alts.binders, r.a.lx) + Keys(alts.body, r.a.lx))
  {
    BindIdentity(alts.binders, vars);
  }

  lemma LetOutput(e: Expr, x': string, v': Expr, b': Expr,
                  vars: map<string, string>, joins: map<string, string>, formals: seq<string>, r: Rules,
                  before: set<string>, mid: set<string>, after: set<string>)
    requires e.Let? && !e.value.Jp? && !v'.Jp?
    requires Output(e.value, v', vars, joins, formals, r, before, mid)
    requires Stands(e.name, x', vars, formals, r) && Admissible(x', r.a) && r.a.lx.key(x') !in mid
    requires Output(e.body, b', vars[e.name := x'], joins, formals, r, mid + {r.a.lx.key(x')}, after)
    ensures Output(e, Let(x', v', b'), vars, joins, formals, r, before, after)
  {
    var e' := Let(x', v', b');
    assert Keys(e', r.a.lx) == {r.a.lx.key(x')} + Keys(v', r.a.lx) + Keys(b', r.a.lx);
  }

  lemma LetSettled(e: Expr, vars: map<string, string>, joins: map<string, string>, formals: seq<string>,
                   r: Rules, before: set<string>)
    requires e.Let? && !e.value.Jp? && Settled(e, vars, joins, formals, r, before)
    ensures Settled(e.value, vars, joins, formals, r, before)
    ensures Admissible(e.name, r.a) && r.a.lx.key(e.name) !in before + Keys(e.value, r.a.lx)
    ensures Settled(e.body, vars[e.name := e.name], joins, formals, r,
                    before + Keys(e.value, r.a.lx) + {r.a.lx.key(e.name)})
  {
  }

  lemma LetJoinSettled(e: Expr, vars: map<string, string>, joins: map<string, string>, formals: seq<string>,
                       r: Rules, before: set<string>)
    requires e.Let? && e.value.Jp? && Settled(e, vars, joins, formals, r, before)
    ensures Admissible(e.name, r.a) && Admissible(e.value.target, r.a)
    ensures r.a.lx.key(e.name) !in before && r.a.lx.key(e.value.target) !in before
    ensures e.name != e.value.target ==> r.a.lx.key(e.name) != r.a.lx.key(e.value.target)
    ensures e.name == e.value.target ==> Settled(e.value, vars, joins, formals, r, before)
    ensures e.name != e.value.target ==> Settled(e.value, vars, joins, formals, r, before + {r.a.lx.key(e.name)})
    ensures Settled(e.body, vars[e.name := e.name], joins[e.value.target := e.value.target], formals, r,
                    before + {r.a.lx.key(e.name)} + Keys(e.value, r.a.lx))
  {
    assert Clean(e.value, r.a);
  }

  lemma {:induction false} BindIdentity(xs: seq<string>, scope: map<string, string>)
    requires Identity(scope)
    ensures Identity(Bind(xs, xs, scope))
    decreases |xs|
  {
    if xs != [] {
      BindIdentity(xs[1..], scope[xs[0] := xs[0]]);
    }
  }

  class Names {
    const r: Rules
    const trackedSources: set<string>
    var formals: seq<string>
    var used: set<string>
    var next: nat
    var tracked: set<string>

    constructor (r: Rules, trackedSources: set<string>)
      ensures this.r == r && this.trackedSources == trackedSources
      ensures used == {} && next == 0 && formals == [] && tracked == {}
    {
      this.r := r;
      this.trackedSources := trackedSources;
      formals := [];
      used := {};
      next := 0;
      tracked := {};
    }

    /** Names in scope have their keys taken. */
    ghost predicate Covers(scope: map<string, string>)
      reads this
    {
      forall x :: x in scope ==> r.a.lx.key(scope[x]) in used
    }

    ghost predicate Valid()
      reads this
    {
      Sane(r.a.lx) && forall x :: x in formals ==> r.a.lx.key(x) in used
    }

    method BindName(original: string) returns (bound: string)
      requires Valid()
      modifies this`used, this`next
      ensures Valid()
      ensures r.a.lx.key(bound) !in old(used) && used == old(used) + {r.a.lx.key(bound)}
      ensures Admissible(bound, r.a)
      ensures bound == original || Unmentioned(bound, r)
      ensures Admissible(original, r.a) && r.a.lx.key(original) !in old(used) ==> bound == original
    {
      var key := r.a.lx.key(original);
      if r.a.lx.valid(original) && key !in r.a.protected && !(r.a.buffer && r.a.lx.temporary(original))
        && key !in used {
        used := used + {key};
        return original;
      }
      ghost var blocked := r.reserved + r.a.protected + used;
      ghost var seen: set<string> := {};
      ghost var start := next;
      while true
        invariant used == old(used) && next >= start
        invariant forall s :: s in seen ==> exists n: nat :: start <= n < next && s == Fresh(n)
        decreases blocked - seen
      {
        var candidate := Fresh(next);
        if candidate in seen {
          var n: nat :| start <= n < next && candidate == Fresh(n);
          FreshInjective(n, next);
        }
        seen := seen + {candidate};
        next := next + 1;
        if candidate !in r.reserved && candidate !in r.a.protected && candidate !in used {
          used := used + {candidate};
          return candidate;
        }
      }
    }

    /** Binds one name and carries compiler-owned identity along. */
    method BindOne(original: string) returns (bound: string)
      requires Valid()
      modifies this`used, this`next, this`tracked
      ensures Valid()
      ensures r.a.lx.key(bound) !in old(used) && used == old(used) + {r.a.lx.key(bound)}
      ensures Admissible(bound, r.a)
      ensures bound == original || Unmentioned(bound, r)
      ensures Admissible(original, r.a) && r.a.lx.key(original) !in old(used) ==> bound == original
      ensures tracked == old(tracked) + CarriedName(original, bound, trackedSources)
    {
      bound := BindName(original);
      if original in trackedSources {
        tracked := tracked + {bound};
      }
    }

    method Bindings(xs: seq<string>, parent: map<string, string>) returns (res: Result<seq<string>, Error>)
      requires Valid() && Covers(parent)
      modifies this`used, this`next, this`tracked
      ensures Valid()
      ensures res.Failure? <==> !Distinct(xs)
      ensures res.Success? ==> Group(xs, res.value, parent, formals, r, old(used), used)
      ensures res.Success? ==> tracked == old(tracked) + CarriedNames(xs, res.value, trackedSources)
      ensures res.Success? ==> Covers(Bind(xs, res.value, parent))
      ensures res.Success? && SettledGroup(xs, r, old(used)) ==> res.value == xs
    {
      if !Distinct(xs) {
        return Failure(DuplicateBinding);
      }
      var ys: seq<string> := [];
      for i := 0 to |xs|
        invariant Valid() && old(used) <= used
        invariant Group(xs[..i], ys, parent, formals, r, old(used), used)
        invariant tracked == old(tracked) + CarriedNames(xs[..i], ys, trackedSources)
        invariant SettledGroup(xs, r, old(used)) ==> ys == xs[..i]
      {
        SettledKeys(xs, i, r, old(used));
        var y := BindOne(xs[i]);
        assert Stands(xs[i], y, parent, formals, r);
        GroupSnoc(xs[..i], xs[i], ys, y, parent, formals, r, old(used), used - {r.a.lx.key(y)});
        CarriedSnoc(xs[..i], xs[i], ys, y, trackedSources);
        assert xs[..i + 1] == xs[..i] + [xs[i]];
        ys := ys + [y];
      }
      assert xs[..|xs|] == xs;
      BindCovered(xs, ys, parent);
      return Success(ys);
    }

    lemma {:induction false} BindCovered(xs: seq<string>, ys: seq<string>, parent: map<string, string>)
      requires |xs| == |ys| && Covers(parent) && KeysOf(ys, r.a.lx) <= used
      ensures Covers(Bind(xs, ys, parent))
      decreases |xs|
    {
      if xs != [] {
        assert r.a.lx.key(ys[0]) in KeysOf(ys, r.a.lx);
        assert KeysOf(ys[1..], r.a.lx) <= KeysOf(ys, r.a.lx);
        BindCovered(xs[1..], ys[1..], parent[xs[0] := ys[0]]);
      }
    }

    /** Formals first, then the body in their scope. */
    method RewriteDefinition(d: Definition) returns (res: Result<(seq<string>, Expr), Error>)
      requires Sane(r.a.lx) && used == {} && formals == [] && tracked == {} && Mentions(d.body, r)
      modifies this
      ensures res.Success? <==> Distinct(d.params) && Grouped(d.body)
      ensures res.Success? ==>
        && Group(d.params, res.value.0, map[], [], r, {}, KeysOf(res.value.0, r.a.lx))
        && Output(d.body, res.value.1, Bind(d.params, res.value.0, map[]), map[], res.value.0, r,
                  KeysOf(res.value.0, r.a.lx), used)
        && tracked == CarriedNames(d.params, res.value.0, trackedSources) + Carried(d.body, res.value.1, trackedSources)
      ensures res.Success? && SettledDefinition(d, r) ==> res.value == (d.params, d.body)
    {
      var params :- Bindings(d.params, map[]);
      formals := params;
      assert used == KeysOf(params, r.a.lx);
      assert Valid() by {
        assert forall x :: x in params ==> r.a.lx.key(x) in KeysOf(params, r.a.lx);
      }
      var body :- Rewrite(d.body, Bind(d.params, params, map[]), map[]);
      res := Success((params, body));
    }

    method Rewrite(e: Expr, vars: map<string, string>, joins: map<string, string>) returns (res: Result<Expr, Error>)
      requires Valid() && Covers(vars) && Covers(joins) && Mentions(e, r)
      modifies this`used, this`next, this`tracked
      ensures Valid()
      ensures res.Success? <==> Grouped(e)
      ensures res.Success? ==> Output(e, res.value, vars, joins, formals, r, old(used), used)
      ensures res.Success? ==> tracked == old(tracked) + Carried(e, res.value, trackedSources)
      ensures res.Success? && Settled(e, vars, joins, formals, r, old(used)) ==> res.value == e
      decreases e, 2
    {
      match e
      case Var(x) =>
        res := Success(Var(Image(x, vars)));
      case Param(i) =>
        res := Success(if i < |formals| then Var(formals[i]) else e);
      case Let(_, v, _) =>
        if v.Jp? {
          res := RewriteLetJoin(e, vars, joins);
        } else {
          res := RewriteLet(e, vars, joins);
        }
      case Match(_, _) =>
        res := RewriteMatch(e, vars, joins);
      case Jp(_, _, _) =>
        res := RewriteJoin(e, vars, joins);
      case If(_, _, _) =>
        res := RewriteIf(e, vars, joins);
      case Jmp(_, _) =>
        res := RewriteJump(e, vars, joins);
      case Prim(_, _) =>
        res := RewriteOperands(e, vars, joins);
      case Call(_, _) =>
        res := RewriteOperands(e, vars, joins);
      case _ =>
        res := Success(e);
    }

    method RewriteOperands(e: Expr, vars: map<string, string>, joins: map<string, string>)
      returns (res: Result<Expr, Error>)
      requires e.Prim? || e.Call?
      requires Valid() && Covers(vars) && Covers(joins) && Mentions(e, r)
      modifies this`used, this`next, this`tracked
      ensures Valid()
      ensures res.Success? <==> Grouped(e)
      ensures res.Success? ==> Output(e, res.value, vars, joins, formals, r, old(used), used)
      ensures res.Success? ==> tracked == old(tracked) + Carried(e, res.value, trackedSources)
      ensures res.Success? && Settled(e, vars, joins, formals, r, old(used)) ==> res.value == e
      decreases e, 1
    {
      match e
      case Prim(op, es) =>
        var es' :- RewriteAll(es, vars, joins);
        res := Success(Prim(op, es'));
      case Call(f, es) =>
        var es' :- RewriteAll(es, vars, joins);
        res := Success(Call(f, es'));
    }

    method RewriteJump(e: Expr, vars: map<string, string>, joins: map<string, string>)
      returns (res: Result<Expr, Error>)
      requires e.Jmp?
      requires Valid() && Covers(vars) && Covers(joins) && Mentions(e, r)
      modifies this`used, this`next, this`tracked
      ensures Valid()
      ensures res.Success? <==> Grouped(e)
      ensures res.Success? ==> Output(e, res.value, vars, joins, formals, r, old(used), used)
      ensures res.Success? ==> tracked == old(tracked) + Carried(e, res.value, trackedSources)
      ensures res.Success? && Settled(e, vars, joins, formals, r, old(used)) ==> res.value == e
      decreases e, 1
    {
      var es' :- RewriteAll(e.args, vars, joins);
      res := Success(Jmp(Image(e.target, joins), es'));
    }

    method RewriteIf(e: Expr, vars: map<string, string>, joins: map<string, string>) returns (res: Result<Expr, Error>)
      requires e.If?
      requires Valid() && Covers(vars) && Covers(joins) && Mentions(e, r)
      modifies this`used, this`next, this`tracked
      ensures Valid()
      ensures res.Success? <==> Grouped(e)
      ensures res.Success? ==> Output(e, res.value, vars, joins, formals, r, old(used), used)
      ensures res.Success? ==> tracked == old(tracked) + Carried(e, res.value, trackedSources)
      ensures res.Success? && Settled(e, vars, joins, formals, r, old(used)) ==> res.value == e
      decreases e, 1
    {
      if Settled(e, vars, joins, formals, r, used) {
        IfSettled(e, vars, joins, formals, r, used);
      }
      var c' :- Rewrite(e.cond, vars, joins);
      ghost var mid, seen := used, tracked;
      var t' :- Rewrite(e.yes, vars, joins);
      ghost var mid', seen' := used, tracked;
      var f' :- Rewrite(e.no, vars, joins);
      IfOutput(e, c', t', f', vars, joins, formals, r, old(used), mid, mid', used);
      Gather(seen, Carried(e.yes, t', trackedSources), seen', Carried(e.no, f', trackedSources), tracked,
             Carried(e.yes, t', trackedSources) + Carried(e.no, f', trackedSources));
      Gather(old(tracked), Carried(e.cond, c', trackedSources), seen,
             Carried(e.yes, t', trackedSources) + Carried(e.no, f', trackedSources), tracked,
             Carried(e, If(c', t', f'), trackedSources));
      res := Success(If(c', t', f'));
    }

    method RewriteMatch(e: Expr, vars: map<string, string>, joins: map<string, string>)
      returns (res: Result<Expr, Error>)
      requires e.Match?
      requires Valid() && Covers(vars) && Covers(joins) && Mentions(e, r)
      modifies this`used, this`next, this`tracked
      ensures Valid()
      ensures res.Success? <==> Grouped(e)
      ensures res.Success? ==> Output(e, res.value, vars, joins, formals, r, old(used), used)
      ensures res.Success? ==> tracked == old(tracked) + Carried(e, res.value, trackedSources)
      ensures res.Success? && Settled(e, vars, joins, formals, r, old(used)) ==> res.value == e
      decreases e, 1
    {
      var s' :- Rewrite(e.scrut, vars, joins);
      ghost var mid := used;
      var alts' :- RewriteAlts(e.alts, vars, joins);
      MatchOutput(e, s', alts', vars, joins, formals, r, old(used), mid, used);
      res := Success(Match(s', alts'));
    }

    method RewriteLet(e: Expr, vars: map<string, string>, joins: map<string, string>) returns (res: Result<Expr, Error>)
      requires e.Let? && !e.value.Jp?
      requires Valid() && Covers(vars) && Covers(joins) && Mentions(e, r)
      modifies this`used, this`next, this`tracked
      ensures Valid()
      ensures res.Success? <==> Grouped(e)
      ensures res.Success? ==> Output(e, res.value, vars, joins, formals, r, old(used), used)
      ensures res.Success? ==> tracked == old(tracked) + Carried(e, res.value, trackedSources)
      ensures res.Success? && Settled(e, vars, joins, formals, r, old(used)) ==> res.value == e
      decreases e, 1
    {
      if Settled(e, vars, joins, formals, r, used) {
        LetSettled(e, vars, joins, formals, r, used);
      }
      var v' :- Rewrite(e.value, vars, joins);
      res := RewriteBound(e, v', vars, joins, old(used), old(tracked));
    }

    /** The name and body of a let whose value is already renamed. */
    method RewriteBound(e: Expr, v': Expr, vars: map<string, string>, joins: map<string, string>,
                        ghost before: set<string>, ghost seen: set<string>) returns (res: Result<Expr, Error>)
      requires e.Let? && !e.value.Jp? && Output(e.value, v', vars, joins, formals, r, before, used)
      requires Valid() && Covers(vars) && Covers(joins) && Mentions(e, r)
      requires tracked == seen + Carried(e.value, v', trackedSources)
      requires Settled(e, vars, joins, formals, r, before) ==> v' == e.value
      modifies this`used, this`next, this`tracked
      ensures Valid()
      ensures res.Success? <==> Grouped(e.body)
      ensures res.Success? ==> Output(e, res.value, vars, joins, formals, r, before, used)
      ensures res.Success? ==> tracked == seen + Carried(e, res.value, trackedSources)
      ensures res.Success? && Settled(e, vars, joins, formals, r, before) ==> res.value == e
      decreases e, 0
    {
      if Settled(e, vars, joins, formals, r, before) {
        LetSettled(e, vars, joins, formals, r, before);
      }
      ghost var mid := used;
      var x' := BindOne(e.name);
      ghost var more := tracked;
      var b' :- Rewrite(e.body, vars[e.name := x'], joins);
      LetOutput(e, x', v', b', vars, joins, formals, r, before, mid, used);
      Gather(seen, Carried(e.value, v', trackedSources) + CarriedName(e.name, x', trackedSources), more,
             Carried(e.body, b', trackedSources), tracked, Carried(e, Let(x', v', b'), trackedSources));
      res := Success(Let(x', v', b'));
    }

    /** A join on its own: nothing outside its continuation can jump to it. */
    method RewriteJoin(e: Expr, vars: map<string, string>, joins: map<string, string>)
      returns (res: Result<Expr, Error>)
      requires e.Jp?
      requires Valid() && Covers(vars) && Covers(joins) && Mentions(e, r)
      modifies this`used, this`next, this`tracked
      ensures Valid()
      ensures res.Success? <==> Grouped(e)
      ensures res.Success? ==> Output(e, res.value, vars, joins, formals, r, old(used), used)
      ensures res.Success? ==> tracked == old(tracked) + Carried(e, res.value, trackedSources)
      ensures res.Success? && Settled(e, vars, joins, formals, r, old(used)) ==> res.value == e
      decreases e, 1
    {
      var l' := BindOne(e.target);
      res := RewriteContinuation(e, l', vars, joins, old(used));
    }

    /** A join declaration and its let: the label and the let name may be one binder. */
    method RewriteLetJoin(e: Expr, vars: map<string, string>, joins: map<string, string>)
      returns (res: Result<Expr, Error>)
      requires e.Let? && e.value.Jp?
      requires Valid() && Covers(vars) && Covers(joins) && Mentions(e, r)
      modifies this`used, this`next, this`tracked
      ensures Valid()
      ensures res.Success? <==> Grouped(e)
      ensures res.Success? ==> Output(e, res.value, vars, joins, formals, r, old(used), used)
      ensures res.Success? ==> tracked == old(tracked) + Carried(e, res.value, trackedSources)
      ensures res.Success? && Settled(e, vars, joins, formals, r, old(used)) ==> res.value == e
      decreases e, 1
    {
      var both :- RewriteDeclaration(e, vars, joins);
      DeclaresKeys(e, both.0, both.1, vars, joins, formals, r, old(used), used);
      res := RewriteUnder(e, both.0, both.1, vars, joins, old(used), old(tracked));
    }

    /** The body under a let whose name and join are already bound. */
    method RewriteUnder(e: Expr, x': string, v': Expr, vars: map<string, string>, joins: map<string, string>,
                        ghost before: set<string>, ghost seen: set<string>) returns (res: Result<Expr, Error>)
      requires e.Let? && e.value.Jp? && Declares(e, x', v', vars, joins, formals, r, before, used)
      requires Valid() && Covers(vars) && Covers(joins) && Mentions(e.body, r)
      requires r.a.lx.key(x') in used && r.a.lx.key(v'.target) in used
      requires tracked == seen + CarriedName(e.name, x', trackedSources) + Carried(e.value, v', trackedSources)
      requires Settled(e, vars, joins, formals, r, before) ==> (x', v') == (e.name, e.value)
      modifies this`used, this`next, this`tracked
      ensures Valid()
      ensures res.Success? <==> Grouped(e.body)
      ensures res.Success? ==> Output(e, res.value, vars, joins, formals, r, before, used)
      ensures res.Success? ==> tracked == seen + Carried(e, res.value, trackedSources)
      ensures res.Success? && Settled(e, vars, joins, formals, r, before) ==> res.value == e
      decreases e, 0
    {
      if Settled(e, vars, joins, formals, r, before) {
        LetJoinSettled(e, vars, joins, formals, r, before);
      }
      ghost var mid := used;
      ghost var more := tracked;
      var b' :- Rewrite(e.body, vars[e.name := x'], joins[e.value.target := v'.target]);
      LetJoinOutput(e, x', v', b', vars, joins, formals, r, before, mid, used);
      Gather(seen, CarriedName(e.name, x', trackedSources) + Carried(e.value, v', trackedSources), more,
             Carried(e.body, b', trackedSources), tracked, Carried(e, Let(x', v', b'), trackedSources));
      res := Success(Let(x', v', b'));
    }

    method RewriteDeclaration(e: Expr, vars: map<string, string>, joins: map<string, string>)
      returns (res: Result<(string, Expr), Error>)
      requires e.Let? && e.value.Jp?
      requires Valid() && Covers(vars) && Covers(joins) && Mentions(e, r)
      modifies this`used, this`next, this`tracked
      ensures Valid()
      ensures res.Success? <==> Grouped(e.value)
      ensures res.Success? ==> Declares(e, res.value.0, res.value.1, vars, joins, formals, r, old(used), used)
      ensures res.Success? ==> tracked == old(tracked) + CarriedName(e.name, res.value.0, trackedSources)
                                          + Carried(e.value, res.value.1, trackedSources)
      ensures res.Success? && Settled(e, vars, joins, formals, r, old(used)) ==> res.value == (e.name, e.value)
      decreases e, 0
    {
      var v := e.value;
      if Settled(e, vars, joins, formals, r, used) {
        LetJoinSettled(e, vars, joins, formals, r, used);
      }
      var l', x' := BindLetJoin(e, vars, joins);
      ghost var before := used - {r.a.lx.key(l')};
      assert before == if e.name == v.target then old(used) else old(used) + {r.a.lx.key(x')};
      ghost var seen := tracked;
      var v' :- RewriteContinuation(v, l', vars, joins, before);
      DeclarationCarried(e, x', v', old(tracked), seen, tracked);
      res := Success((x', v'));
    }

    lemma DeclarationCarried(e: Expr, x': string, v': Expr, t0: set<string>, t1: set<string>, t2: set<string>)
      requires e.Let? && e.value.Jp? && v'.Jp?
      requires t1 == t0 + CarriedName(e.name, x', trackedSources)
          + CarriedName(e.value.target, v'.target, trackedSources)
      requires t2 == t1 + CarriedNames(e.value.params, v'.params, trackedSources)
                     + Carried(e.value.cont, v'.cont, trackedSources)
      ensures t2 == t0 + CarriedName(e.name, x', trackedSources) + Carried(e.value, v', trackedSources)
    {}

    method BindLetJoin(e: Expr, vars: map<string, string>, joins: map<string, string>) returns (l': string, x': string)
      requires e.Let? && e.value.Jp?
      requires Valid() && Covers(vars) && Covers(joins)
      modifies this`used, this`next, this`tracked
      ensures Valid()
      ensures Stands(e.value.target, l', joins, [], r) && Admissible(l', r.a) && r.a.lx.key(l') !in old(used)
      ensures Stands(e.name, x', vars, formals, r) && Admissible(x', r.a) && r.a.lx.key(x') !in old(used)
      ensures used == old(used) + {r.a.lx.key(l'), r.a.lx.key(x')}
      ensures tracked == old(tracked) + CarriedName(e.name, x', trackedSources)
                         + CarriedName(e.value.target, l', trackedSources)
      ensures if e.name == e.value.target then x' == l' else r.a.lx.key(x') != r.a.lx.key(l')
      ensures
        && Admissible(e.name, r.a) && r.a.lx.key(e.name) !in old(used)
        && Admissible(e.value.target, r.a) && r.a.lx.key(e.value.target) !in old(used)
        && (e.name != e.value.target ==> r.a.lx.key(e.name) != r.a.lx.key(e.value.target)) ==>
        x' == e.name && l' == e.value.target
    {
      l' := BindOne(e.value.target);
      x' := l';
      if e.name != e.value.target {
        x' := BindOne(e.name);
      }
    }

    /** The parameters and continuation of a join whose label is already bound. */
    method RewriteContinuation(e: Expr, l': string, vars: map<string, string>, joins: map<string, string>,
                               ghost before: set<string>) returns (res: Result<Expr, Error>)
      requires e.Jp?
      requires Valid() && Covers(vars) && Covers(joins) && Mentions(e, r)
      requires r.a.lx.key(l') !in before && used == before + {r.a.lx.key(l')}
      requires Admissible(l', r.a) && Stands(e.target, l', joins, [], r)
      modifies this`used, this`next, this`tracked
      ensures Valid()
      ensures res.Success? <==> Grouped(e)
      ensures res.Success? ==>
        && res.value.Jp? && res.value.target == l'
        && Output(e, res.value, vars, joins, formals, r, before, used)
      ensures res.Success? ==> tracked == old(tracked) + CarriedNames(e.params, res.value.params, trackedSources)
                                          + Carried(e.cont, res.value.cont, trackedSources)
      ensures res.Success? && Settled(e, vars, joins, formals, r, before) && l' == e.target ==> res.value == e
      decreases e, 0
    {
      if Settled(e, vars, joins, formals, r, before) && l' == e.target {
        JoinSettled(e, vars, joins, formals, r, before);
      }
      var ps' :- Bindings(e.params, vars);
      ghost var mid := used;
      var c' :- Rewrite(e.cont, Bind(e.params, ps', vars), joins[e.target := l']);
      JoinOutput(e.target, l', e.params, ps', e.cont, c', vars, joins, formals, r, before, mid, used);
      res := Success(Jp(l', ps', c'));
    }

    method RewriteAll(es: Exprs, vars: map<string, string>, joins: map<string, string>)
      returns (res: Result<Exprs, Error>)
      requires Valid() && Covers(vars) && Covers(joins) && MentionsAll(es, r)
      modifies this`used, this`next, this`tracked
      ensures Valid()
      ensures res.Success? <==> GroupedAll(es)
      ensures res.Success? ==> OutputAll(es, res.value, vars, joins, formals, r, old(used), used)
      ensures res.Success? ==> tracked == old(tracked) + CarriedAll(es, res.value, trackedSources)
      ensures res.Success? && SettledAll(es, vars, joins, formals, r, old(used)) ==> res.value == es
      decreases es
    {
      match es
      case Nil =>
        res := Success(Nil);
      case Cons(e, tail) =>
        var e' :- Rewrite(e, vars, joins);
        var tail' :- RewriteAll(tail, vars, joins);
        res := Success(Cons(e', tail'));
    }

    method RewriteAlts(alts: Alts, vars: map<string, string>, joins: map<string, string>)
      returns (res: Result<Alts, Error>)
      requires Valid() && Covers(vars) && Covers(joins) && MentionsAlts(alts, r)
      modifies this`used, this`next, this`tracked
      ensures Valid()
      ensures res.Success? <==> GroupedAlts(alts)
      ensures res.Success? ==> OutputAlts(alts, res.value, vars, joins, formals, r, old(used), used)
      ensures res.Success? ==> tracked == old(tracked) + CarriedAlts(alts, res.value, trackedSources)
      ensures res.Success? && SettledAlts(alts, vars, joins, formals, r, old(used)) ==> res.value == alts
      decreases alts, 1
    {
      match alts
      case NoMore =>
        res := Success(NoMore);
      case Default(b) =>
        var b' :- Rewrite(b, vars, joins);
        res := Success(Default(b'));
      case Alt(_, _, _, _) =>
        res := RewriteAlt(alts, vars, joins);
    }

    method RewriteAlt(alts: Alts, vars: map<string, string>, joins: map<string, string>)
      returns (res: Result<Alts, Error>)
      requires alts.Alt?
      requires Valid() && Covers(vars) && Covers(joins) && MentionsAlts(alts, r)
      modifies this`used, this`next, this`tracked
      ensures Valid()
      ensures res.Success? <==> GroupedAlts(alts)
      ensures res.Success? ==> OutputAlts(alts, res.value, vars, joins, formals, r, old(used), used)
      ensures res.Success? ==> tracked == old(tracked) + CarriedAlts(alts, res.value, trackedSources)
      ensures res.Success? && SettledAlts(alts, vars, joins, formals, r, old(used)) ==> res.value == alts
      decreases alts, 0
    {
      var Alt(c, bs, b, rest) := alts;
      if SettledAlts(alts, vars, joins, formals, r, used) {
        AltSettled(alts, vars, joins, formals, r, used);
      }
      var bs' :- Bindings(bs, vars);
      ghost var mid := used;
      ghost var seen := tracked;
      var b' :- Rewrite(b, Bind(bs, bs', vars), joins);
      ghost var mid' := used;
      Gather(old(tracked), CarriedNames(bs, bs', trackedSources), seen, Carried(b, b', trackedSources), tracked,
             CarriedNames(bs, bs', trackedSources) + Carried(b, b', trackedSources));
      seen := tracked;
      var rest' :- RewriteAlts(rest, vars, joins);
      AltOutput(c, bs, bs', b, b', rest, rest', vars, joins, formals, r, old(used), mid, mid', used);
      Gather(old(tracked), CarriedNames(bs, bs', trackedSources) + Carried(b, b', trackedSources), seen,
             CarriedAlts(rest, rest', trackedSources), tracked,
             CarriedAlts(alts, Alt(c, bs', b', rest'), trackedSources));
      res := Success(Alt(c, bs', b', rest'));
    }
  }

  // ---- one definition ----

  /** Names generated code uses inside the body: temporaries, callees, host constructors. */
  function Occupied(e: Expr, lx: Lexicon): set<string> {
    match e
    case Lit(_) => {}
    case Var(_) => {}
    case Param(_) => {}
    case Prim(op, es) => OccupiedBy(op, lx) + OccupiedAll(es, lx)
    case If(c, t, f) => Occupied(c, lx) + Occupied(t, lx) + Occupied(f, lx)
    case Let(_, v, b) => Occupied(v, lx) + Occupied(b, lx)
    case Match(s, alts) => Occupied(s, lx) + OccupiedAlts(alts, lx)
    case Call(f, es) => {lx.emitted(f)} + OccupiedAll(es, lx)
    case Jp(_, _, c) => Occupied(c, lx)
    case Jmp(_, es) => OccupiedAll(es, lx)
    case Unreachable => {}
  }

  function OccupiedBy(op: Op, lx: Lexicon): set<string> {
    match op
    case Append => {"__value"}
    case Ctor(name) =>
      (if name == "List.cons" then {"__list"} else {}) + (if lx.declared(name) then {} else {name})
    case _ => {}
  }

  function OccupiedAll(es: Exprs, lx: Lexicon): set<string> {
    match es
    case Nil => {}
    case Cons(e, tail) => Occupied(e, lx) + OccupiedAll(tail, lx)
  }

  function OccupiedAlts(alts: Alts, lx: Lexicon): set<string> {
    match alts
    case NoMore => {}
    case Default(b) => Occupied(b, lx)
    case Alt(c, _, b, rest) =>
      (if lx.declared(c) then {} else {c}) + Occupied(b, lx) + OccupiedAlts(rest, lx)
  }

  function AlphabetOf(d: Definition, lx: Lexicon): Alphabet {
    var buffer := d.ret.List? && d.params != [];
    var names := {"Some", "None", "Ok", "Err", "Self", "_"} + Occupied(d.body, lx)
      + (if lx.emitted(d.name) != d.name then {lx.emitted(d.name)} else {})
      + (if buffer then {"output", "__source", "__len"} else {});
    Alphabet(lx, set n | n in names :: lx.key(n), buffer)
  }

  function RulesOf(d: Definition, lx: Lexicon): Rules {
    Rules(AlphabetOf(d, lx), KeysOf(d.params, lx) + MentionKeys(d.body, lx))
  }

  /** Nothing left to rename: distinct keys throughout, and no positional references. */
  predicate Hygienic(d: Definition, lx: Lexicon) {
    var a := AlphabetOf(d, lx);
    && AdmissibleAll(d.params, a) && DistinctKeys(d.params, lx)
    && Clean(d.body, a) && KeysOf(d.params, lx) !! Keys(d.body, lx)
    && NoParam(d.body, |d.params|)
  }

  /** `d'` is `d` with formals and body renamed consistently. */
  ghost predicate Normalizes(d: Definition, d': Definition, lx: Lexicon) {
    var r := RulesOf(d, lx);
    && d' == d.(params := d'.params, body := d'.body)
    && StandAll(d.params, d'.params, map[], [], r)
    && Renamed(d.body, d'.body, Bind(d.params, d'.params, map[]), map[], d'.params, r)
  }

  lemma {:induction false} OccupiedSame(e: Expr, e': Expr, vars: map<string, string>, joins: map<string, string>,
                                        formals: seq<string>, r: Rules, lx: Lexicon)
    requires Renamed(e, e', vars, joins, formals, r)
    ensures Occupied(e', lx) == Occupied(e, lx)
    decreases e
  {
    match e
    case Lit(_) =>
    case Var(_) =>
    case Param(_) =>
    case Unreachable =>
    case Prim(_, es) => OccupiedSameAll(es, e'.args, vars, joins, formals, r, lx);
    case If(c, t, f) =>
      OccupiedSame(c, e'.cond, vars, joins, formals, r, lx);
      OccupiedSame(t, e'.yes, vars, joins, formals, r, lx);
      OccupiedSame(f, e'.no, vars, joins, formals, r, lx);
    case Let(x, v, b) =>
      OccupiedSame(v, e'.value, vars, joins, formals, r, lx);
      OccupiedSame(b, e'.body, vars[x := e'.name], Visibly(v, e'.value, joins), formals, r, lx);
    case Match(s, alts) =>
      OccupiedSame(s, e'.scrut, vars, joins, formals, r, lx);
      OccupiedSameAlts(alts, e'.alts, vars, joins, formals, r, lx);
    case Call(_, es) => OccupiedSameAll(es, e'.args, vars, joins, formals, r, lx);
    case Jp(l, ps, c) =>
      OccupiedSame(c, e'.cont, Bind(ps, e'.params, vars), joins[l := e'.target], formals, r, lx);
    case Jmp(_, es) => OccupiedSameAll(es, e'.args, vars, joins, formals, r, lx);
  }

  lemma {:induction false} OccupiedSameAll(es: Exprs, es': Exprs, vars: map<string, string>, joins: map<string, string>,
                                           formals: seq<string>, r: Rules, lx: Lexicon)
    requires RenamedAll(es, es', vars, joins, formals, r)
    ensures OccupiedAll(es', lx) == OccupiedAll(es, lx)
    decreases es
  {
    match es
    case Nil =>
    case Cons(e, tail) =>
      OccupiedSame(e, es'.head, vars, joins, formals, r, lx);
      OccupiedSameAll(tail, es'.tail, vars, joins, formals, r, lx);
  }

  lemma {:induction false} OccupiedSameAlts(alts: Alts, alts': Alts, vars: map<string, string>,
                                            joins: map<string, string>, formals: seq<string>, r: Rules, lx: Lexicon)
    requires RenamedAlts(alts, alts', vars, joins, formals, r)
    ensures OccupiedAlts(alts', lx) == OccupiedAlts(alts, lx)
    decreases alts
  {
    match alts
    case NoMore =>
    case Default(b) => OccupiedSame(b, alts'.otherwise, vars, joins, formals, r, lx);
    case Alt(_, bs, b, rest) =>
      OccupiedSame(b, alts'.body, Bind(bs, alts'.binders, vars), joins, formals, r, lx);
      OccupiedSameAlts(rest, alts'.rest, vars, joins, formals, r, lx);
  }

  /** The pass fails exactly on a duplicate in one binding group; otherwise its result is
      hygienic, and a hygienic definition is its own result, so normalising twice is
      normalising once. */
  method NormalizeTracking(d: Definition, lx: Lexicon, trackedSources: set<string>)
    returns (res: Result<(Definition, set<string>), Error>)
    requires Sane(lx)
    ensures res.Success? <==> Distinct(d.params) && Grouped(d.body)
    ensures res.Success? ==> Normalizes(d, res.value.0, lx) && Hygienic(res.value.0, lx)
    ensures res.Success? && Hygienic(d, lx) ==> res.value.0 == d
    ensures res.Success? ==> res.value.1 == CarriedNames(d.params, res.value.0.params, trackedSources)
                                            + Carried(d.body, res.value.0.body, trackedSources)
  {
    var r := RulesOf(d, lx);
    if Hygienic(d, lx) {
      HygienicSettled(d, lx);
    }
    var names := new Names(r, trackedSources);
    var both :- names.RewriteDefinition(d);
    var (params, body) := both;
    NormalizedResult(d, params, body, lx, KeysOf(params, lx), names.used);
    res := Success((d.(params := params, body := body), names.tracked));
  }

  /** In a hygienic definition there is nothing to rename. */
  lemma HygienicSettled(d: Definition, lx: Lexicon)
    requires Hygienic(d, lx)
    ensures SettledDefinition(d, RulesOf(d, lx))
  {
    BindIdentity(d.params, map[]);
  }

  lemma NormalizedResult(d: Definition, params: seq<string>, body: Expr, lx: Lexicon, before: set<string>,
                         after: set<string>)
    requires Group(d.params, params, map[], [], RulesOf(d, lx), {}, before)
    requires Output(d.body, body, Bind(d.params, params, map[]), map[], params, RulesOf(d, lx), before, after)
    ensures var d' := d.(params := params, body := body); Normalizes(d, d', lx) && Hygienic(d', lx)
  {
    var d' := d.(params := params, body := body);
    OccupiedSame(d.body, body, Bind(d.params, params, map[]), map[], params, RulesOf(d, lx), lx);
    assert AlphabetOf(d', lx) == RulesOf(d, lx).a;
  }
}
