/** A list that is counted once and moved twice.

    The count that lets a list be taken by value sees a scrutinee once; the arm of `Nat.succ`
    repeats the scrutinee's text.  `RereadingRefused` is a definition whose accumulator is
    accepted and whose worker the compiler refuses; `RereadingFails` shows what the worker
    would do, `LocalMovedTwice` the same for a local.
 */
module MovedTwice {
  import opened Ir
  import opened Semantics
  import opened PathUses
  import opened TailCalls
  import opened OwnedAccumulators
  import opened OwningUses
  import opened Wrappers
  import MoveCheck

  const Empty: Expr := Prim(Ctor("List.nil"), Nil)

  const Done: Expr := Prim(Ctor("R.mk"), Cons(Empty, Nil))

  /** `length (x ++ [])` */
  function Measured(x: string): Expr {
    Prim(Length, Cons(Extended(x), Nil))
  }

  function Extended(x: string): Expr {
    Prim(Append, Cons(Var(x), Cons(Empty, Nil)))
  }

  function Smaller(n: string): Exprs {
    Cons(Prim(Sub, Cons(Var(n), Cons(Lit(NatLit(1)), Nil))), Cons(Empty, Nil))
  }

  function Arms(f: string, n: string, k: string): Alts {
    Alt("Nat.zero", [], Done, Alt("Nat.succ", [k], Call(f, Smaller(n)), NoMore))
  }

  function IsZero(n: string): Expr {
    Prim(Eq, Cons(Var(n), Cons(Lit(NatLit(0)), Nil)))
  }

  /** `f n x = if n == 0 then R [] else match length (x ++ []) with 0 => R [] | k + 1 => f (n - 1) []` */
  function Rereading(f: string, n: string, x: string, k: string): Definition {
    Definition(f, [n, x], [Scalar, List(Scalar)], Named("R"), If(IsZero(n), Done, Match(Measured(x), Arms(f, n, k))))
  }

  /** The accumulator counts once and is accepted, so the worker takes it by value; but the arm
      repeats the scrutinee that moves it, and the compiler refuses. */
  lemma RereadingRefused(f: string, n: string, x: string, k: string)
    requires x != n && x != k
    ensures var d := Rereading(f, n, x, k);
      Accepted(d, [false, false], false, 1) && !Compiles(d, {1})
  {
    var d := Rereading(f, n, x, k);
    RereadingCandidate(f, n, x, k);
    RereadingPlanned(f, n, x, k);
    RereadingRereads(f, n, x, k);
    assert 1 in {1};
    CompilesExactly(d, {1});
  }

  lemma RereadingCandidate(f: string, n: string, x: string, k: string)
    requires x != n && x != k
    ensures Candidate(Rereading(f, n, x, k), 1)
  {
    var d := Rereading(f, n, x, k);
    RereadingOwned(f, n, x, k);
    RereadingUses(f, n, x, k);
    PathIsSequential(d.body, x, 1, f, false);
  }

  /** Every plan assigns the accumulator. */
  lemma RereadingPlanned(f: string, n: string, x: string, k: string)
    requires x != n && x != k
    ensures var d := Rereading(f, n, x, k);
      && !NoSelfCall(d.body, f)
      && (exists marks :: Lowering(d, Borrowed(d, [false, false]), marks))
      && (forall marks :: Lowering(d, Borrowed(d, [false, false]), marks) ==> marks[1])
  {
    var d := Rereading(f, n, x, k);
    assert Borrowed(d, [false, false]) == [false, false];
    RereadingLowers(f, n, x, k, Plan(f, [n, x], [false, false], [true, true]));
    assert Lowering(d, [false, false], [true, true]);
    forall marks | Lowering(d, [false, false], marks)
      ensures marks[1]
    {
      RereadingMarks(f, n, x, k, Plan(f, [n, x], [false, false], marks));
    }
    RereadingCalls(f, n, x, k);
  }

  lemma RereadingMarks(f: string, n: string, x: string, k: string, p: Plan)
    requires p.Valid() && p.name == f && |p.params| == 2 && Lowers(Rereading(f, n, x, k).body, true, p)
    ensures p.changed[1]
  {
    var arms, call := Arms(f, n, k), Call(f, Smaller(n));
    assert Lowers(Match(Measured(x), arms), true, p);
    assert LowersAlts(arms, true, p);
    assert arms.rest == Alt("Nat.succ", [k], call, NoMore);
    assert LowersAlts(arms.rest, true, p);
    assert Lowers(call, true, p);
    assert LowersArgs(Smaller(n), 0, p);
    assert LowersArgs(Smaller(n).tail, 1, p);
  }

  lemma RereadingCalls(f: string, n: string, x: string, k: string)
    ensures !NoSelfCall(Rereading(f, n, x, k).body, f)
  {
    var arms, call, body := Arms(f, n, k), Call(f, Smaller(n)), Rereading(f, n, x, k).body;
    assert !NoSelfCall(call, f);
    assert Bodies(arms.rest) == [call] + Bodies(NoMore);
    assert Bodies(arms) == [Done] + Bodies(arms.rest);
    assert Bodies(arms)[1] == call;
    assert call in [Measured(x)] + Bodies(arms);
    assert call in Children(body.no);
    assert !NoSelfCall(body.no, f);
    assert body.no in Children(body);
  }

  lemma RereadingOwned(f: string, n: string, x: string, k: string)
    requires x != n && x != k
    ensures OwnedUses(Rereading(f, n, x, k).body, x, 1, f, false)
    ensures OwnedUses(Match(Measured(x), Arms(f, n, k)), x, 1, f, false)
  {
    assert OwnedUses(Empty, x, 1, f, false) && OwnedUses(Done, x, 1, f, false);
    assert OwnedUsesAll(Cons(Empty, Nil), x, 1, f, false);
    assert OwnedUses(Extended(x), x, 1, f, false);
    assert OwnedUses(Measured(x), x, 1, f, false);
    assert OwnedUsesAll(IsZero(n).args.tail, x, 1, f, false);
    assert OwnedUses(IsZero(n), x, 1, f, false);
    SmallerOwned(f, n, x);
    assert OwnedUses(Call(f, Smaller(n)), x, 1, f, false);
    assert OwnedUsesAlts(NoMore, x, 1, f, false);
    assert OwnedUsesAlts(Arms(f, n, k).rest, x, 1, f, false);
    assert OwnedUsesAlts(Arms(f, n, k), x, 1, f, false);
  }

  lemma SmallerOwned(f: string, n: string, x: string)
    requires x != n
    ensures OwnedArgs(Smaller(n), 0, x, 1, f, f)
  {
    assert OwnedUsesAll(Nil, x, 1, f, false);
    assert OwnedUsesAll(Smaller(n).head.args.tail, x, 1, f, false);
    assert OwnedUses(Smaller(n).head, x, 1, f, false);
    assert OwnedUses(Empty, x, 1, f, true);
    assert OwnedArgs(Smaller(n).tail, 1, x, 1, f, f);
  }

  lemma PairUses(op: Op, a: Expr, b: Expr, x: string)
    requires b != Var(x)
    ensures SequentialUses(Prim(op, Cons(a, Cons(b, Nil))), x) == SequentialUses(a, x) + SequentialUses(b, x)
  {
    var e := Prim(op, Cons(a, Cons(b, Nil)));
    assert !SelfAppend(e, x);
    SingleUses(b, x);
  }

  lemma SingleUses(a: Expr, x: string)
    ensures SequentialUsesAll(Cons(a, Nil), x) == SequentialUses(a, x)
  {
    assert SequentialUsesAll(Nil, x) == 0;
  }

  lemma RereadingUses(f: string, n: string, x: string, k: string)
    requires x != n
    ensures SequentialUses(Rereading(f, n, x, k).body, x) == 1
    ensures SequentialUses(Match(Measured(x), Arms(f, n, k)), x) == 1
  {
    assert SequentialUses(Empty, x) == 0;
    SingleUses(Empty, x);
    assert SequentialUses(Done, x) == 0;
    PairUses(Append, Var(x), Empty, x);
    SingleUses(Extended(x), x);
    assert SequentialUses(Measured(x), x) == 1;
    PairUses(Eq, Var(n), Lit(NatLit(0)), x);
    ArmUsesNothing(f, n, x, k);
  }

  lemma ArmUsesNothing(f: string, n: string, x: string, k: string)
    requires x != n
    ensures SequentialUsesAlts(Arms(f, n, k), x) == 0
  {
    assert SequentialUses(Empty, x) == 0;
    SingleUses(Empty, x);
    assert SequentialUses(Done, x) == 0;
    PairUses(Sub, Var(n), Lit(NatLit(1)), x);
    assert SequentialUsesAll(Smaller(n), x) == 0;
    assert SequentialUsesAlts(Arms(f, n, k).rest, x) == 0;
  }

  lemma RereadingLowers(f: string, n: string, x: string, k: string, p: Plan)
    requires p == Plan(f, [n, x], [false, false], [true, true])
    ensures Lowers(Rereading(f, n, x, k).body, true, p)
  {
    assert Lowers(Empty, false, p);
    assert LowersAll(Cons(Empty, Nil), p);
    assert Lowers(Done, true, p);
    assert LowersArgs(Smaller(n).tail, 1, p);
    assert LowersAll(Smaller(n).head.args.tail, p);
    assert Lowers(Smaller(n).head, false, p);
    assert LowersArgs(Smaller(n), 0, p);
    assert Lowers(Call(f, Smaller(n)), true, p);
    assert LowersAlts(Arms(f, n, k).rest, true, p);
    assert LowersAlts(Arms(f, n, k), true, p);
    assert Lowers(Extended(x), false, p);
    assert Lowers(Measured(x), false, p);
    assert LowersAll(IsZero(n).args.tail, p);
    assert Lowers(IsZero(n), false, p);
  }

  lemma RereadingRereads(f: string, n: string, x: string, k: string)
    requires x != n
    ensures Rereads(Rereading(f, n, x, k).body, x) && Rereads(Match(Measured(x), Arms(f, n, k)), x)
  {
    assert Ends(Empty) && EndsAll(Cons(Empty, Nil));
    assert Ends(Extended(x)) && Moves(Extended(x), x);
    assert Ends(Measured(x)) && Moves(Measured(x), x);
    assert Ends(IsZero(n));
    assert RereadsAlts(Arms(f, n, k).rest, x, true);
  }

  /** The pure definition. */
  lemma RereadingRuns(m: Machine, calls: nat, f: string, n: string, x: string, k: string, i: nat, items: seq<Value>)
    requires f in m.defs && m.defs[f] == Rereading(f, n, x, k) && n != x && x != k && n != k
    requires calls > 0 || items == []
    ensures Run(m, calls, f, [Nat(i), Seq(items)]) == Ok(Con("R.mk", [Seq([])]))
    decreases |items|
  {
    var vs := [Nat(i), Seq(items)];
    var env := map[n := Nat(i), x := Seq(items)];
    BindTwo(n, Nat(i), x, Seq(items));
    DoneIs(m, calls, m.jumps, vs, env);
    EvalTwo(m, calls, m.jumps, vs, Var(n), Lit(NatLit(0)), env);
    assert Eval(m, calls, m.jumps, vs, IsZero(n), env, NoJoin) == Ok(Bool(i == 0));
    assert Run(m, calls, f, vs) == Eval(m, calls, m.jumps, vs, m.defs[f].body, env, NoJoin);
    if i > 0 {
      if items != [] {
        RereadingRuns(m, calls - 1, f, n, x, k, i - 1, []);
      }
      MatchIs(m, calls, vs, env, f, n, x, k, i, items);
    }
  }

  lemma MatchIs(m: Machine, calls: nat, vs: seq<Value>, env: Env, f: string, n: string, x: string, k: string,
                i: nat, items: seq<Value>)
    requires env == map[n := Nat(i), x := Seq(items)] && i > 0 && n != x && k != n && k != x
    requires items != [] ==> calls > 0 && Run(m, calls - 1, f, [Nat(i - 1), Seq([])]) == Ok(Con("R.mk", [Seq([])]))
    ensures Eval(m, calls, m.jumps, vs, Match(Measured(x), Arms(f, n, k)), env, NoJoin) == Ok(Con("R.mk", [Seq([])]))
  {
    DoneIs(m, calls, m.jumps, vs, env);
    MeasuredIs(m, calls, m.jumps, vs, env, x, items);
    SelectEval(m, calls, m.jumps, vs, Arms(f, n, k), Nat(|items|), env, NoJoin);
    ArmTaken(f, n, k, |items|);
    if items != [] {
      BindOne(k, Nat(|items| - 1), env);
      SmallerIs(m, calls, m.jumps, vs, env[k := Nat(|items| - 1)], n, i);
    } else {
      assert Bind([], [], env) == env;
    }
  }

  lemma ArmTaken(f: string, n: string, k: string, size: nat)
    ensures Select(Arms(f, n, k), Nat(size))
         == Some(if size == 0 then Arm([], [], Done, false) else Arm([k], [Nat(size - 1)], Call(f, Smaller(n)), true))
  {
    assert Select(Arms(f, n, k).rest, Nat(size))
        == Some(Arm([k], [Nat(if size == 0 then 0 else size - 1)], Call(f, Smaller(n)), true));
  }

  lemma BindOne<T>(x: string, v: T, env: map<string, T>)
    ensures Bind([x], [v], env) == env[x := v]
  {
    assert [x][1..] == [] && [v][1..] == [];
  }

  lemma BindTwo(x: string, v: Value, y: string, u: Value)
    requires x != y
    ensures Bind([x, y], [v, u], map[]) == map[x := v, y := u]
  {
    assert [x, y][1..] == [y] && [v, u][1..] == [u];
    BindOne(y, u, map[x := v]);
  }

  /** Two operands in a row. */
  lemma EvalTwo(m: Machine, calls: nat, jumps: nat, actuals: seq<Value>, a: Expr, b: Expr, env: Env)
    requires Eval(m, calls, jumps, actuals, a, env, NoJoin).Ok? && Eval(m, calls, jumps, actuals, b, env, NoJoin).Ok?
    ensures EvalAll(m, calls, jumps, actuals, Cons(a, Cons(b, Nil)), env, NoJoin)
         == Oks([Eval(m, calls, jumps, actuals, a, env, NoJoin).value,
                 Eval(m, calls, jumps, actuals, b, env, NoJoin).value])
  {
    var u := Eval(m, calls, jumps, actuals, b, env, NoJoin).value;
    assert EvalAll(m, calls, jumps, actuals, Cons(b, Nil), env, NoJoin) == Oks([u] + []);
    assert [u] + [] == [u];
  }

  lemma EmptyIs(m: Machine, calls: nat, jumps: nat, actuals: seq<Value>, env: Env)
    ensures Eval(m, calls, jumps, actuals, Empty, env, NoJoin) == Ok(Seq([]))
  {}

  lemma EvalSingle(m: Machine, calls: nat, jumps: nat, actuals: seq<Value>, a: Expr, env: Env)
    requires Eval(m, calls, jumps, actuals, a, env, NoJoin).Ok?
    ensures EvalAll(m, calls, jumps, actuals, Cons(a, Nil), env, NoJoin)
         == Oks([Eval(m, calls, jumps, actuals, a, env, NoJoin).value])
  {
    var u := Eval(m, calls, jumps, actuals, a, env, NoJoin).value;
    assert [u] + [] == [u];
  }

  lemma DoneIs(m: Machine, calls: nat, jumps: nat, actuals: seq<Value>, env: Env)
    ensures Eval(m, calls, jumps, actuals, Done, env, NoJoin) == Ok(Con("R.mk", [Seq([])]))
  {
    EmptyIs(m, calls, jumps, actuals, env);
    EvalSingle(m, calls, jumps, actuals, Empty, env);
  }

  lemma MeasuredIs(m: Machine, calls: nat, jumps: nat, actuals: seq<Value>, env: Env, x: string, items: seq<Value>)
    requires x in env && env[x] == Seq(items)
    ensures Eval(m, calls, jumps, actuals, Measured(x), env, NoJoin) == Ok(Nat(|items|))
  {
    EmptyIs(m, calls, jumps, actuals, env);
    EvalTwo(m, calls, jumps, actuals, Var(x), Empty, env);
    assert items + [] == items;
    assert Eval(m, calls, jumps, actuals, Extended(x), env, NoJoin) == Ok(Seq(items));
    EvalSingle(m, calls, jumps, actuals, Extended(x), env);
  }

  lemma SmallerIs(m: Machine, calls: nat, jumps: nat, actuals: seq<Value>, env: Env, n: string, i: nat)
    requires n in env && env[n] == Nat(i) && i > 0
    ensures EvalAll(m, calls, jumps, actuals, Smaller(n), env, NoJoin) == Oks([Nat(i - 1), Seq([])])
  {
    EmptyIs(m, calls, jumps, actuals, env);
    EvalTwo(m, calls, jumps, actuals, Var(n), Lit(NatLit(1)), env);
    EvalTwo(m, calls, jumps, actuals, Smaller(n).head, Empty, env);
  }

  /** The destructive one. */
  lemma RereadingTurn(m: Machine, calls: nat, f: string, n: string, x: string, k: string, i: nat, items: seq<Value>)
    requires n != x && x != k && n != k && i > 0 && items != []
    ensures var p := Plan(f, [n, x], [false, false], [true, true]);
      var vs := [Nat(i), Seq(items)];
      TakeTurn(m, calls, vs, Rereading(f, n, x, k).body, Locals([n, x], {1}, vs), Opening([n, x], {1}, vs), p).0
        == Exit(UseAfterMove)
  {
    var vs := [Nat(i), Seq(items)];
    var env, st := Locals([n, x], {1}, vs), Opening([n, x], {1}, vs);
    OpeningIs(n, x, i, items);
    ZeroTaken(m, calls, env, st, n, i);
    RereadingMatch(m, calls, vs, f, n, x, k, items, env, st, Plan(f, [n, x], [false, false], [true, true]));
  }

  lemma RereadingMatch(m: Machine, calls: nat, formals: seq<Value>, f: string, n: string, x: string, k: string,
                       items: seq<Value>, env: HeldEnv, st: Store, p: Plan)
    requires p.Valid() && |formals| == |p.params|
    requires st.heaps == map[x := Seq(items)] && st.mine == {x} && items != []
    ensures TakeTurn(m, calls, formals, Match(Measured(x), Arms(f, n, k)), env, st, p).0 == Exit(UseAfterMove)
  {
    MeasuredTaken(m, calls, env, st, x, items);
    ArmTaken(f, n, k, |items|);
  }

  lemma OpeningIs(n: string, x: string, i: nat, items: seq<Value>)
    requires n != x
    ensures var vs := [Nat(i), Seq(items)];
      var env, st := Locals([n, x], {1}, vs), Opening([n, x], {1}, vs);
      && st.heaps == map[x := Seq(items)] && st.mine == {x}
      && n in env && env[n] == Plain(Nat(i))
  {
    var vs := [Nat(i), Seq(items)];
    PlainLocals([n, x], vs, map[], map[]);
    BindTwo(n, Nat(i), x, Seq(items));
    assert Buffers([n, x], {1}, vs) == map[x := Seq(items)];
  }

  lemma TakeOne(m: Machine, calls: nat, a: Expr, env: HeldEnv, st: Store)
    requires Take(m, calls, a, env, st).0.Has?
    ensures var (g, st') := Take(m, calls, a, env, st);
      TakeAll(m, calls, Cons(a, Nil), env, st) == (HasAll([g.held]), st')
  {
    var (g, st') := Take(m, calls, a, env, st);
    assert [g.held] + [] == [g.held];
  }

  lemma TakeTwo(m: Machine, calls: nat, a: Expr, b: Expr, env: HeldEnv, st: Store)
    requires Take(m, calls, a, env, st).0.Has?
    requires Take(m, calls, b, env, Take(m, calls, a, env, st).1).0.Has?
    ensures var (g, st') := Take(m, calls, a, env, st);
      var (h, st'') := Take(m, calls, b, env, st');
      TakeAll(m, calls, Cons(a, Cons(b, Nil)), env, st) == (HasAll([g.held, h.held]), st'')
  {
    var (g, st') := Take(m, calls, a, env, st);
    var (h, st'') := Take(m, calls, b, env, st');
    TakeOne(m, calls, b, env, st');
    assert [g.held] + [h.held] == [g.held, h.held];
  }

  lemma ZeroTaken(m: Machine, calls: nat, env: HeldEnv, st: Store, n: string, i: nat)
    requires n !in st.heaps && n in env && env[n] == Plain(Nat(i))
    ensures Take(m, calls, IsZero(n), env, st) == (Has(Plain(Bool(i == 0))), st)
  {
    TakeTwo(m, calls, Var(n), Lit(NatLit(0)), env, st);
    ReifyPair([Plain(Nat(i)), Plain(Nat(0))], st.heaps);
  }

  /** Once it yields the length; a second time there is nothing left to take. */
  lemma MeasuredTaken(m: Machine, calls: nat, env: HeldEnv, st: Store, x: string, items: seq<Value>)
    requires st.heaps == map[x := Seq(items)] && st.mine == {x}
    ensures var (g, st') := Take(m, calls, Measured(x), env, st);
      && g == Has(Plain(Nat(|items|)))
      && Take(m, calls, Measured(x), env, st').0 == UseAfterMove
  {
    var taken := Store(st.heaps, {});
    EmptyTaken(m, calls, env, taken);
    ExtendedTaken(m, calls, env, st, x, items);
    TakeOne(m, calls, Extended(x), env, st);
    assert ReifyAll([Buffer(x)], taken.heaps) == [Seq(items)];
    GoneTaken(m, calls, env, taken, x);
  }

  lemma GoneTaken(m: Machine, calls: nat, env: HeldEnv, st: Store, x: string)
    requires x in st.heaps && x !in st.mine
    ensures Take(m, calls, Measured(x), env, st).0 == UseAfterMove
  {
    assert Take(m, calls, Var(x), env, st).0 == UseAfterMove;
    assert TakeAll(m, calls, Extended(x).args, env, st).0 == StopsAll(UseAfterMove);
    assert TakeAll(m, calls, Measured(x).args, env, st).0 == StopsAll(UseAfterMove);
  }

  lemma EmptyTaken(m: Machine, calls: nat, env: HeldEnv, st: Store)
    ensures Take(m, calls, Empty, env, st) == (Has(Plain(Seq([]))), st)
  {}

  lemma ExtendedTaken(m: Machine, calls: nat, env: HeldEnv, st: Store, x: string, items: seq<Value>)
    requires st.heaps == map[x := Seq(items)] && st.mine == {x}
    ensures Take(m, calls, Extended(x), env, st) == (Has(Buffer(x)), Store(st.heaps, {}))
  {
    var taken := Store(st.heaps, {});
    EmptyTaken(m, calls, env, taken);
    assert st.mine - {x} == {};
    TakeTwo(m, calls, Var(x), Empty, env, st);
    ReifyPair([Buffer(x), Plain(Seq([]))], taken.heaps);
    assert items + [] == items;
    assert taken.heaps[x := Seq(items)] == taken.heaps;
  }

  /** Run all the same, every activation with a list in it and something left to count down
      uses the accumulator after it was moved, where the pure definition returns `R []`. */
  lemma RereadingFails(m: Machine, calls: nat, f: string, n: string, x: string, k: string, i: nat, items: seq<Value>)
    requires f in m.defs && m.defs[f] == Rereading(f, n, x, k) && n != x && x != k && n != k
    requires i > 0 && items != [] && calls > 0
    ensures var p := Plan(f, [n, x], [false, false], [true, true]);
      var vs := [Nat(i), Seq(items)];
      && Run(m, calls, f, vs) == Ok(Con("R.mk", [Seq([])]))
      && TakeTurn(m, calls, vs, m.defs[f].body, Locals([n, x], {1}, vs), Opening([n, x], {1}, vs), p).0
         == Exit(UseAfterMove)
  {
    RereadingRuns(m, calls, f, n, x, k, i, items);
    RereadingTurn(m, calls, f, n, x, k, i, items);
  }

  /** A local that counts once in such a match is moved by the scrutinee, and by the arm again. */
  lemma LocalMovedTwice(m: Machine, calls: nat, actuals: seq<Value>, f: string, n: string, x: string, k: string,
                        env: Env, items: seq<Value>)
    requires x != n && x != k && x in env && env[x] == Seq(items) && items != []
    ensures var e := Match(Measured(x), Arms(f, n, k));
      && PathUses.PathUses(e, x) == 1 && MoveCheck.After(e, x, MoveCheck.Mine).Refused?
      && !LastOnly(Trace(m, calls, m.jumps, actuals, e, env, x))
  {
    MatchRefused(f, n, x, k);
    MeasuredIs(m, calls, m.jumps, actuals, env, x, items);
    ArmTaken(f, n, k, |items|);
    MeasuredTrace(m, calls, actuals, env, x);
    var inner := Bind([k], [Nat(|items| - 1)], env);
    var rest := Trace(m, calls, m.jumps, actuals, Call(f, Smaller(n)), inner, x);
    assert Trace(m, calls, m.jumps, actuals, Match(Measured(x), Arms(f, n, k)), env, x) == [Use] + [Use] + rest;
    assert ([Use] + [Use] + rest)[0] == Use;
  }

  lemma MatchRefused(f: string, n: string, x: string, k: string)
    requires x != n && x != k
    ensures var e := Match(Measured(x), Arms(f, n, k));
      PathUses.PathUses(e, x) == 1 && MoveCheck.After(e, x, MoveCheck.Mine).Refused?
  {
    var e := Match(Measured(x), Arms(f, n, k));
    RereadingOwned(f, n, x, k);
    OwnedPlain(e, x, 1, f, false, 0);
    MatchOnce(f, n, x, k);
    RereadingRereads(f, n, x, k);
    MoveCheck.MovedOnceCompiles(e, x);
  }

  lemma MatchOnce(f: string, n: string, x: string, k: string)
    requires x != n
    ensures PathUses.PathUses(Match(Measured(x), Arms(f, n, k)), x) == 1
  {
    RereadingUses(f, n, x, k);
    MeasuredUses(x);
  }

  lemma MeasuredUses(x: string)
    ensures VarUses(Measured(x), x) > 0
  {
    assert VarUses(Var(x), x) > 0;
    assert VarUses(Extended(x), x) > 0;
  }

  lemma MeasuredTrace(m: Machine, calls: nat, actuals: seq<Value>, env: Env, x: string)
    ensures Trace(m, calls, m.jumps, actuals, Measured(x), env, x) == [Use]
  {
    assert Trace(m, calls, m.jumps, actuals, Empty, env, x) == [];
    assert TraceAll(m, calls, m.jumps, actuals, Cons(Empty, Nil), env, x) == [];
    assert Trace(m, calls, m.jumps, actuals, Var(x), env, x) == [Use];
    assert Trace(m, calls, m.jumps, actuals, Extended(x), env, x) == [Use];
    assert Measured(x) != Prim(Length, Cons(Var(x), Nil));
    assert TraceAll(m, calls, m.jumps, actuals, Cons(Extended(x), Nil), env, x) == [Use];
  }
}
