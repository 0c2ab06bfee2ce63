/** How often one execution path uses a local (`count_path_uses`).

    A count of at most one lets the renderer move a value instead of cloning it.
    `NoUseAfterMove` is what that relies on: along every execution, whatever touches the
    local last, everything before it only read a length.
 */
module PathUses {
  import opened Ir
  import opened Semantics
  import opened Wrappers

  /** `length x`: a scalar read that keeps no reference. */
  predicate ScalarRead(e: Expr, x: string) {
    e == Prim(Length, Cons(Var(x), Nil))
  }

  /** `append x x`, which consumes one owner and extends it from its own range. */
  predicate SelfAppend(e: Expr, x: string) {
    e == Prim(Append, Cons(Var(x), Cons(Var(x), Nil)))
  }

  // ---- the counts ----

  function VarUses(e: Expr, x: string): nat {
    match e
    case Lit(_) => 0
    case Var(y) => if y == x then 1 else 0
    case Param(_) => 0
    case Prim(_, es) => VarUsesAll(es, x)
    case If(c, t, f) => VarUses(c, x) + VarUses(t, x) + VarUses(f, x)
    case Let(_, v, b) => VarUses(v, x) + VarUses(b, x)
    case Match(s, alts) => VarUses(s, x) + VarUsesAlts(alts, x)
    case Call(_, es) => VarUsesAll(es, x)
    case Jp(_, _, c) => VarUses(c, x)
    case Jmp(_, es) => VarUsesAll(es, x)
    case Unreachable => 0
  }

  function VarUsesAll(es: Exprs, x: string): nat {
    match es
    case Nil => 0
    case Cons(e, tail) => VarUses(e, x) + VarUsesAll(tail, x)
  }

  function VarUsesAlts(alts: Alts, x: string): nat {
    match alts
    case NoMore => 0
    case Default(b) => VarUses(b, x)
    case Alt(_, _, b, rest) => VarUses(b, x) + VarUsesAlts(rest, x)
  }

  function SequentialUses(e: Expr, x: string): nat {
    if SelfAppend(e, x) then 1 else
    match e
    case Lit(_) => 0
    case Var(y) => if y == x then 1 else 0
    case Param(_) => 0
    case Prim(_, es) => SequentialUsesAll(es, x)
    case If(c, t, f) => SequentialUses(c, x) + Max(SequentialUses(t, x), SequentialUses(f, x))
    case Let(_, v, b) => SequentialUses(v, x) + SequentialUses(b, x)
    case Match(s, alts) => SequentialUses(s, x) + SequentialUsesAlts(alts, x)
    case Call(_, es) => SequentialUsesAll(es, x)
    case Jp(_, _, c) => SequentialUses(c, x)
    case Jmp(_, es) => SequentialUsesAll(es, x)
    case Unreachable => 0
  }

  function SequentialUsesAll(es: Exprs, x: string): nat {
    match es
    case Nil => 0
    case Cons(e, tail) => SequentialUses(e, x) + SequentialUsesAll(tail, x)
  }

  function SequentialUsesAlts(alts: Alts, x: string): nat {
    match alts
    case NoMore => 0
    case Default(b) => SequentialUses(b, x)
    case Alt(_, _, b, rest) => Max(SequentialUses(b, x), SequentialUsesAlts(rest, x))
  }

  /** A leading let that leaves the owner alone, or reads its length. */
  predicate Leading(e: Expr, x: string) {
    e.Let? && (ScalarRead(e.value, x) || VarUses(e.value, x) == 0)
  }

  function PathUses(e: Expr, x: string): nat {
    if Leading(e, x) then PathUses(e.body, x)
    else if e.If? && VarUses(e.cond, x) == 0 then Max(PathUses(e.yes, x), PathUses(e.no, x))
    else if e.Match? && VarUses(e.scrut, x) == 0 then PathUsesAlts(e.alts, x)
    else SequentialUses(e, x)
  }

  function PathUsesAlts(alts: Alts, x: string): nat {
    match alts
    case NoMore => 0
    case Default(b) => PathUses(b, x)
    case Alt(_, _, b, rest) => Max(PathUses(b, x), PathUsesAlts(rest, x))
  }

  /** The counting loop: skip leading lets, then branch. */
  method CountPathUses(e: Expr, x: string) returns (n: nat)
    ensures n == PathUses(e, x)
    decreases e
  {
    var current := e;
    while current.Let? && (ScalarRead(current.value, x) || VarUses(current.value, x) == 0)
      invariant PathUses(current, x) == PathUses(e, x)
      invariant current == e || current < e
      decreases current
    {
      current := current.body;
    }
    if current.If? && VarUses(current.cond, x) == 0 {
      var yes := CountPathUses(current.yes, x);
      var no := CountPathUses(current.no, x);
      n := Max(yes, no);
    } else if current.Match? && VarUses(current.scrut, x) == 0 {
      n := CountPathUsesAlts(current.alts, x);
    } else {
      n := SequentialUses(current, x);
    }
  }

  method CountPathUsesAlts(alts: Alts, x: string) returns (n: nat)
    ensures n == PathUsesAlts(alts, x)
    decreases alts
  {
    match alts
    case NoMore =>
      n := 0;
    case Default(b) =>
      n := CountPathUses(b, x);
    case Alt(_, _, b, rest) =>
      var first := CountPathUses(b, x);
      var others := CountPathUsesAlts(rest, x);
      n := Max(first, others);
  }

  lemma {:induction false} SequentialZero(e: Expr, x: string)
    ensures SequentialUses(e, x) == 0 <==> VarUses(e, x) == 0
  {
    if SelfAppend(e, x) {
      assert VarUsesAll(e.args, x) >= VarUses(Var(x), x);
    } else {
      match e
      case Lit(_) =>
      case Var(_) =>
      case Param(_) =>
      case Unreachable =>
      case Prim(_, es) => SequentialZeroAll(es, x);
      case If(c, t, f) =>
        SequentialZero(c, x);
        SequentialZero(t, x);
        SequentialZero(f, x);
      case Let(_, v, b) =>
        SequentialZero(v, x);
        SequentialZero(b, x);
      case Match(s, alts) =>
        SequentialZero(s, x);
        SequentialZeroAlts(alts, x);
      case Call(_, es) => SequentialZeroAll(es, x);
      case Jp(_, _, c) => SequentialZero(c, x);
      case Jmp(_, es) => SequentialZeroAll(es, x);
    }
  }

  lemma {:induction false} SequentialZeroAll(es: Exprs, x: string)
    ensures SequentialUsesAll(es, x) == 0 <==> VarUsesAll(es, x) == 0
  {
    match es
    case Nil =>
    case Cons(e, tail) =>
      SequentialZero(e, x);
      SequentialZeroAll(tail, x);
  }

  lemma {:induction false} SequentialZeroAlts(alts: Alts, x: string)
    ensures SequentialUsesAlts(alts, x) == 0 <==> VarUsesAlts(alts, x) == 0
  {
    match alts
    case NoMore =>
    case Default(b) => SequentialZero(b, x);
    case Alt(_, _, b, rest) =>
      SequentialZero(b, x);
      SequentialZeroAlts(rest, x);
  }

  // ---- arms ----

  /** What one arm may do, by what all may do. */
  lemma {:induction false} ArmUses(alts: Alts, v: Value, x: string)
    requires Select(alts, v).Some?
    ensures var b := Select(alts, v).value.body;
      && VarUses(b, x) <= VarUsesAlts(alts, x)
      && SequentialUses(b, x) <= SequentialUsesAlts(alts, x)
      && PathUses(b, x) <= PathUsesAlts(alts, x)
  {
    if alts.Alt? && Fields(alts.ctor, |alts.binders|, v) == [] {
      ArmUses(alts.rest, v, x);
    }
  }

  lemma {:induction false} ArmEnds(alts: Alts, v: Value, x: string)
    requires Select(alts, v).Some?
    ensures var b := Select(alts, v).value.body;
      && (Ends(b) ==> EndsAlts(alts))
      && (Moves(b, x) ==> MovesAlts(alts, x))
  {
    if alts.Alt? && Fields(alts.ctor, |alts.binders|, v) == [] {
      ArmEnds(alts.rest, v, x);
    }
  }

  lemma {:induction false} ArmRereads(alts: Alts, v: Value, x: string, moved: bool)
    requires Select(alts, v).Some? && !RereadsAlts(alts, x, moved)
    ensures var a := Select(alts, v).value; !Rereads(a.body, x) && (a.again ==> !moved)
  {
    if alts.Alt? && Fields(alts.ctor, |alts.binders|, v) == [] {
      ArmRereads(alts.rest, v, x, moved);
    }
  }

  // ---- repeated scrutinees ----

  /** Some path through the term reaches its end. */
  predicate Ends(e: Expr) {
    match e
    case Lit(_) => true
    case Var(_) => true
    case Param(_) => true
    case Prim(_, es) => EndsAll(es)
    case If(c, t, f) => Ends(c) && (Ends(t) || Ends(f))
    case Let(_, v, b) => Ends(v) && Ends(b)
    case Match(s, alts) => Ends(s) && EndsAlts(alts)
    case Call(_, es) => EndsAll(es)
    case Jp(_, _, _) => true
    case Jmp(_, es) => EndsAll(es)
    case Unreachable => false
  }

  predicate EndsAll(es: Exprs) {
    match es
    case Nil => true
    case Cons(e, tail) => Ends(e) && EndsAll(tail)
  }

  predicate EndsAlts(alts: Alts) {
    match alts
    case NoMore => false
    case Default(b) => Ends(b)
    case Alt(_, _, b, rest) => Ends(b) || EndsAlts(rest)
  }

  /** Some path that reaches the end of the term moves `x` on its way. */
  predicate Moves(e: Expr, x: string) {
    if ScalarRead(e, x) then false else if SelfAppend(e, x) then true else
    match e
    case Lit(_) => false
    case Var(y) => y == x
    case Param(_) => false
    case Prim(_, es) => MovesAll(es, x)
    case If(c, t, f) =>
      (Moves(c, x) && (Ends(t) || Ends(f))) || (Ends(c) && (Moves(t, x) || Moves(f, x)))
    case Let(_, v, b) =>
      if v.Jp? then VarUses(e, x) > 0 else (Moves(v, x) && Ends(b)) || (Ends(v) && Moves(b, x))
    case Match(s, alts) => (Moves(s, x) && EndsAlts(alts)) || (Ends(s) && MovesAlts(alts, x))
    case Call(_, es) => MovesAll(es, x)
    case Jp(_, _, _) => false
    case Jmp(_, es) => MovesAll(es, x)
    case Unreachable => false
  }

  predicate MovesAll(es: Exprs, x: string) {
    match es
    case Nil => false
    case Cons(e, tail) => (Moves(e, x) && EndsAll(tail)) || (Ends(e) && MovesAll(tail, x))
  }

  predicate MovesAlts(alts: Alts, x: string) {
    match alts
    case NoMore => false
    case Default(b) => Moves(b, x)
    case Alt(_, _, b, rest) => Moves(b, x) || MovesAlts(rest, x)
  }

  /** Some path reaches an arm that repeats the text of a scrutinee which moves `x`. */
  predicate Rereads(e: Expr, x: string) {
    match e
    case Lit(_) => false
    case Var(_) => false
    case Param(_) => false
    case Prim(_, es) => RereadsAll(es, x)
    case If(c, t, f) => Rereads(c, x) || (Ends(c) && (Rereads(t, x) || Rereads(f, x)))
    case Let(_, v, b) => Rereads(v, x) || (Ends(v) && Rereads(b, x))
    case Match(s, alts) => Rereads(s, x) || (Ends(s) && RereadsAlts(alts, x, Moves(s, x)))
    case Call(_, es) => RereadsAll(es, x)
    case Jp(_, _, c) => Rereads(c, x)
    case Jmp(_, es) => RereadsAll(es, x)
    case Unreachable => false
  }

  predicate RereadsAll(es: Exprs, x: string) {
    match es
    case Nil => false
    case Cons(e, tail) => Rereads(e, x) || (Ends(e) && RereadsAll(tail, x))
  }

  predicate RereadsAlts(alts: Alts, x: string, moved: bool) {
    match alts
    case NoMore => false
    case Default(b) => Rereads(b, x)
    case Alt(c, bs, b, rest) => (Repeats(c, |bs|) && moved) || Rereads(b, x) || RereadsAlts(rest, x, moved)
  }

  /** No arm that repeats its scrutinee has `x` in it: the check that needs no flow. */
  predicate Unrepeated(e: Expr, x: string) {
    match e
    case Lit(_) => true
    case Var(_) => true
    case Param(_) => true
    case Prim(_, es) => UnrepeatedAll(es, x)
    case If(c, t, f) => Unrepeated(c, x) && Unrepeated(t, x) && Unrepeated(f, x)
    case Let(_, v, b) => Unrepeated(v, x) && Unrepeated(b, x)
    case Match(s, alts) => Unrepeated(s, x) && UnrepeatedAlts(alts, x, VarUses(s, x) > 0)
    case Call(_, es) => UnrepeatedAll(es, x)
    case Jp(_, _, c) => Unrepeated(c, x)
    case Jmp(_, es) => UnrepeatedAll(es, x)
    case Unreachable => true
  }

  predicate UnrepeatedAll(es: Exprs, x: string) {
    match es
    case Nil => true
    case Cons(e, tail) => Unrepeated(e, x) && UnrepeatedAll(tail, x)
  }

  predicate UnrepeatedAlts(alts: Alts, x: string, used: bool) {
    match alts
    case NoMore => true
    case Default(b) => Unrepeated(b, x)
    case Alt(c, bs, b, rest) => !(Repeats(c, |bs|) && used) && Unrepeated(b, x) && UnrepeatedAlts(rest, x, used)
  }

  lemma {:induction false} MovesUses(e: Expr, x: string)
    requires VarUses(e, x) == 0
    ensures !Moves(e, x) && !Rereads(e, x)
    decreases e, 1
  {
    match e
    case Lit(_) =>
    case Var(_) =>
    case Param(_) =>
    case Unreachable =>
    case Prim(_, _) => MovesUsesPrim(e, x);
    case If(c, t, f) =>
      MovesUses(c, x);
      MovesUses(t, x);
      MovesUses(f, x);
    case Let(_, v, b) =>
      MovesUses(v, x);
      MovesUses(b, x);
    case Match(s, alts) =>
      MovesUses(s, x);
      MovesUsesAlts(alts, x);
    case Call(_, es) => MovesUsesAll(es, x);
    case Jp(_, _, c) => MovesUses(c, x);
    case Jmp(_, es) => MovesUsesAll(es, x);
  }

  lemma {:induction false} MovesUsesPrim(e: Expr, x: string)
    requires e.Prim? && VarUses(e, x) == 0
    ensures !Moves(e, x) && !Rereads(e, x)
    decreases e, 0
  {
    assert SelfAppend(e, x) ==> VarUsesAll(e.args, x) >= VarUses(Var(x), x);
    MovesUsesAll(e.args, x);
  }

  lemma {:induction false} MovesUsesAll(es: Exprs, x: string)
    requires VarUsesAll(es, x) == 0
    ensures !MovesAll(es, x) && !RereadsAll(es, x)
    decreases es
  {
    match es
    case Nil =>
    case Cons(e, tail) =>
      MovesUses(e, x);
      MovesUsesAll(tail, x);
  }

  lemma {:induction false} MovesUsesAlts(alts: Alts, x: string)
    requires VarUsesAlts(alts, x) == 0
    ensures !MovesAlts(alts, x) && !RereadsAlts(alts, x, false)
    decreases alts
  {
    match alts
    case NoMore =>
    case Default(b) => MovesUses(b, x);
    case Alt(_, _, b, rest) =>
      MovesUses(b, x);
      MovesUsesAlts(rest, x);
  }

  /** The check without flow is enough. */
  lemma {:induction false} UnrepeatedSafe(e: Expr, x: string)
    requires Unrepeated(e, x)
    ensures !Rereads(e, x)
    decreases e
  {
    match e
    case Lit(_) =>
    case Var(_) =>
    case Param(_) =>
    case Unreachable =>
    case Prim(_, es) => UnrepeatedSafeAll(es, x);
    case If(c, t, f) =>
      UnrepeatedSafe(c, x);
      UnrepeatedSafe(t, x);
      UnrepeatedSafe(f, x);
    case Let(_, v, b) =>
      UnrepeatedSafe(v, x);
      UnrepeatedSafe(b, x);
    case Match(s, alts) =>
      UnrepeatedSafe(s, x);
      if Moves(s, x) && VarUses(s, x) == 0 {
        MovesUses(s, x);
      }
      UnrepeatedSafeAlts(alts, x, VarUses(s, x) > 0, Moves(s, x));
    case Call(_, es) => UnrepeatedSafeAll(es, x);
    case Jp(_, _, c) => UnrepeatedSafe(c, x);
    case Jmp(_, es) => UnrepeatedSafeAll(es, x);
  }

  lemma {:induction false} UnrepeatedSafeAll(es: Exprs, x: string)
    requires UnrepeatedAll(es, x)
    ensures !RereadsAll(es, x)
    decreases es
  {
    match es
    case Nil =>
    case Cons(e, tail) =>
      UnrepeatedSafe(e, x);
      UnrepeatedSafeAll(tail, x);
  }

  lemma {:induction false} UnrepeatedSafeAlts(alts: Alts, x: string, used: bool, moved: bool)
    requires UnrepeatedAlts(alts, x, used) && (moved ==> used)
    ensures !RereadsAlts(alts, x, moved)
    decreases alts
  {
    match alts
    case NoMore =>
    case Default(b) => UnrepeatedSafe(b, x);
    case Alt(_, _, b, rest) =>
      UnrepeatedSafe(b, x);
      UnrepeatedSafeAlts(rest, x, used, moved);
  }

  // ---- what one execution does to the local ----

  datatype Event = Read | Use

  /** The reads and uses of `x` that evaluating the emitted code of a join-free term performs,
      in order, up to the point where evaluation stops. */
  function Trace(m: Machine, calls: nat, jumps: nat, actuals: seq<Value>, e: Expr, env: Env, x: string): seq<Event>
    decreases e
  {
    if ScalarRead(e, x) then [Read]
    else if SelfAppend(e, x) then [Use]
    else match e
    case Lit(_) => []
    case Var(y) => if y == x then [Use] else []
    case Param(_) => []
    case Prim(_, es) => TraceAll(m, calls, jumps, actuals, es, env, x)
    case If(c, t, f) =>
      var o := Eval(m, calls, jumps, actuals, c, env, NoJoin);
      Trace(m, calls, jumps, actuals, c, env, x)
        + (if !o.Ok? || !o.value.Bool? then []
           else Trace(m, calls, jumps, actuals, if o.value.b then t else f, env, x))
    case Let(y, v, b) =>
      var o := Eval(m, calls, jumps, actuals, v, env, NoJoin);
      Trace(m, calls, jumps, actuals, v, env, x)
        + (if !o.Ok? then [] else Trace(m, calls, jumps, actuals, b, env[y := o.value], x))
    case Match(s, alts) =>
      var o := Eval(m, calls, jumps, actuals, s, env, NoJoin);
      var first := Trace(m, calls, jumps, actuals, s, env, x);
      if !o.Ok? || Select(alts, o.value).None? then first
      else
        var a := Select(alts, o.value).value;
        var body := Trace(m, calls, jumps, actuals, a.body, Bind(a.binders, a.fields, env), x);
        if a.again then first + first + body else first + body
    case Call(_, es) => TraceAll(m, calls, jumps, actuals, es, env, x)
    case Jp(_, _, _) => []
    case Jmp(_, es) => TraceAll(m, calls, jumps, actuals, es, env, x)
    case Unreachable => []
  }

  function TraceAll(m: Machine, calls: nat, jumps: nat, actuals: seq<Value>, es: Exprs, env: Env, x: string): seq<Event>
    decreases es
  {
    match es
    case Nil => []
    case Cons(e, tail) =>
      var o := Eval(m, calls, jumps, actuals, e, env, NoJoin);
      Trace(m, calls, jumps, actuals, e, env, x)
        + (if !o.Ok? then [] else TraceAll(m, calls, jumps, actuals, tail, env, x))
  }

  /** How often a trace moves the local. */
  function MoveCount(t: seq<Event>): nat {
    if t == [] then 0 else (if t[0].Use? then 1 else 0) + MoveCount(t[1..])
  }

  lemma {:induction false} MoveCountConcat(t: seq<Event>, u: seq<Event>)
    ensures MoveCount(t + u) == MoveCount(t) + MoveCount(u)
  {
    if t == [] {
      assert t + u == u;
    } else {
      assert (t + u)[1..] == t[1..] + u;
      MoveCountConcat(t[1..], u);
    }
  }

  lemma {:induction false} MoveCountZero(t: seq<Event>)
    ensures MoveCount(t) == 0 <==> Use !in t
  {
    if t != [] {
      MoveCountZero(t[1..]);
      assert t == [t[0]] + t[1..];
    }
  }

  lemma {:induction false} TraceZero(m: Machine, calls: nat, jumps: nat, actuals: seq<Value>, e: Expr, env: Env,
                                     x: string)
    requires VarUses(e, x) == 0
    ensures Trace(m, calls, jumps, actuals, e, env, x) == []
    decreases e, 1
  {
    match e
    case Lit(_) =>
    case Var(_) =>
    case Param(_) =>
    case Unreachable =>
    case Jp(_, _, _) =>
    case Prim(_, es) =>
      assert ScalarRead(e, x) || SelfAppend(e, x) ==> VarUsesAll(es, x) >= VarUses(Var(x), x);
      TraceZeroAll(m, calls, jumps, actuals, es, env, x);
    case If(c, t, f) =>
      TraceZero(m, calls, jumps, actuals, c, env, x);
      TraceZero(m, calls, jumps, actuals, t, env, x);
      TraceZero(m, calls, jumps, actuals, f, env, x);
    case Let(y, v, b) =>
      TraceZero(m, calls, jumps, actuals, v, env, x);
      var o := Eval(m, calls, jumps, actuals, v, env, NoJoin);
      if o.Ok? {
        TraceZero(m, calls, jumps, actuals, b, env[y := o.value], x);
      }
    case Match(s, alts) =>
      TraceZero(m, calls, jumps, actuals, s, env, x);
      var o := Eval(m, calls, jumps, actuals, s, env, NoJoin);
      if o.Ok? && Select(alts, o.value).Some? {
        var a := Select(alts, o.value).value;
        ArmUses(alts, o.value, x);
        TraceZero(m, calls, jumps, actuals, a.body, Bind(a.binders, a.fields, env), x);
      }
    case Call(_, es) => TraceZeroAll(m, calls, jumps, actuals, es, env, x);
    case Jmp(_, es) => TraceZeroAll(m, calls, jumps, actuals, es, env, x);
  }

  lemma {:induction false} TraceZeroAll(m: Machine, calls: nat, jumps: nat, actuals: seq<Value>, es: Exprs, env: Env,
                                        x: string)
    requires VarUsesAll(es, x) == 0
    ensures TraceAll(m, calls, jumps, actuals, es, env, x) == []
    decreases es
  {
    match es
    case Nil =>
    case Cons(e, tail) =>
      TraceZero(m, calls, jumps, actuals, e, env, x);
      TraceZeroAll(m, calls, jumps, actuals, tail, env, x);
  }

  /** An evaluation that succeeds is a path that ends. */
  lemma {:induction false} OkEnds(m: Machine, calls: nat, jumps: nat, actuals: seq<Value>, e: Expr, env: Env, js: Joins)
    requires Eval(m, calls, jumps, actuals, e, env, js).Ok?
    ensures Ends(e)
    decreases e
  {
    match e
    case Lit(_) =>
    case Var(_) =>
    case Param(_) =>
    case Unreachable =>
    case Jp(_, _, _) =>
    case Prim(_, es) => OkEndsAll(m, calls, jumps, actuals, es, env, js);
    case If(c, t, f) =>
      OkEnds(m, calls, jumps, actuals, c, env, js);
      var o := Eval(m, calls, jumps, actuals, c, env, js);
      OkEnds(m, calls, jumps, actuals, if o.value.b then t else f, env, js);
    case Let(y, v, b) =>
      OkEnds(m, calls, jumps, actuals, v, env, js);
      var o := Eval(m, calls, jumps, actuals, v, env, js);
      OkEnds(m, calls, jumps, actuals, b, env[y := o.value], Visible(v, env, js));
    case Match(s, alts) =>
      OkEnds(m, calls, jumps, actuals, s, env, js);
      var o := Eval(m, calls, jumps, actuals, s, env, js);
      SelectEval(m, calls, jumps, actuals, alts, o.value, env, js);
      var a := Select(alts, o.value).value;
      OkEnds(m, calls, jumps, actuals, a.body, Bind(a.binders, a.fields, env), js);
      ArmEnds(alts, o.value, "");
    case Call(_, es) => OkEndsAll(m, calls, jumps, actuals, es, env, js);
    case Jmp(_, es) => OkEndsAll(m, calls, jumps, actuals, es, env, js);
  }

  lemma {:induction false} OkEndsAll(m: Machine, calls: nat, jumps: nat, actuals: seq<Value>, es: Exprs, env: Env,
                                     js: Joins)
    requires EvalAll(m, calls, jumps, actuals, es, env, js).Oks?
    ensures EndsAll(es)
    decreases es
  {
    match es
    case Nil =>
    case Cons(e, tail) =>
      OkEnds(m, calls, jumps, actuals, e, env, js);
      OkEndsAll(m, calls, jumps, actuals, tail, env, js);
  }

  /** An evaluation that succeeds and moves the local is a path that moves it. */
  lemma {:induction false} TraceMoves(m: Machine, calls: nat, jumps: nat, actuals: seq<Value>, e: Expr, env: Env,
                                      x: string)
    requires Eval(m, calls, jumps, actuals, e, env, NoJoin).Ok? && Use in Trace(m, calls, jumps, actuals, e, env, x)
    ensures Moves(e, x)
    decreases e, 1
  {
    match e
    case Var(_) =>
    case Prim(_, es) => if !SelfAppend(e, x) { TraceMovesAll(m, calls, jumps, actuals, es, env, x); }
    case If(_, _, _) => TraceMovesIf(m, calls, jumps, actuals, e, env, x);
    case Let(_, _, _) => TraceMovesLet(m, calls, jumps, actuals, e, env, x);
    case Match(_, _) => TraceMovesMatch(m, calls, jumps, actuals, e, env, x);
    case Call(_, es) => TraceMovesAll(m, calls, jumps, actuals, es, env, x);
    case Jmp(_, es) => TraceMovesAll(m, calls, jumps, actuals, es, env, x);
  }

  lemma {:induction false} TraceMovesIf(m: Machine, calls: nat, jumps: nat, actuals: seq<Value>, e: Expr, env: Env,
                                        x: string)
    requires e.If?
    requires Eval(m, calls, jumps, actuals, e, env, NoJoin).Ok? && Use in Trace(m, calls, jumps, actuals, e, env, x)
    ensures Moves(e, x)
    decreases e, 0
  {
    var o := Eval(m, calls, jumps, actuals, e.cond, env, NoJoin);
    var branch := if o.value.b then e.yes else e.no;
    OkEnds(m, calls, jumps, actuals, e.cond, env, NoJoin);
    OkEnds(m, calls, jumps, actuals, branch, env, NoJoin);
    if Use in Trace(m, calls, jumps, actuals, e.cond, env, x) {
      TraceMoves(m, calls, jumps, actuals, e.cond, env, x);
    } else {
      TraceMoves(m, calls, jumps, actuals, branch, env, x);
    }
  }

  lemma {:induction false} TraceMovesLet(m: Machine, calls: nat, jumps: nat, actuals: seq<Value>, e: Expr, env: Env,
                                         x: string)
    requires e.Let?
    requires Eval(m, calls, jumps, actuals, e, env, NoJoin).Ok? && Use in Trace(m, calls, jumps, actuals, e, env, x)
    ensures Moves(e, x)
    decreases e, 0
  {
    var Let(y, v, b) := e;
    var o := Eval(m, calls, jumps, actuals, v, env, NoJoin);
    if v.Jp? {
      if VarUses(e, x) == 0 {
        TraceZero(m, calls, jumps, actuals, e, env, x);
      }
    } else {
      OkEnds(m, calls, jumps, actuals, v, env, NoJoin);
      OkEnds(m, calls, jumps, actuals, b, env[y := o.value], NoJoin);
      if Use in Trace(m, calls, jumps, actuals, v, env, x) {
        TraceMoves(m, calls, jumps, actuals, v, env, x);
      } else {
        TraceMoves(m, calls, jumps, actuals, b, env[y := o.value], x);
      }
    }
  }

  lemma {:induction false} TraceMovesMatch(m: Machine, calls: nat, jumps: nat, actuals: seq<Value>, e: Expr, env: Env,
                                           x: string)
    requires e.Match?
    requires Eval(m, calls, jumps, actuals, e, env, NoJoin).Ok? && Use in Trace(m, calls, jumps, actuals, e, env, x)
    ensures Moves(e, x)
    decreases e, 0
  {
    var Match(s, alts) := e;
    var o := Eval(m, calls, jumps, actuals, s, env, NoJoin);
    SelectEval(m, calls, jumps, actuals, alts, o.value, env, NoJoin);
    var a := Select(alts, o.value).value;
    var inner := Bind(a.binders, a.fields, env);
    OkEnds(m, calls, jumps, actuals, s, env, NoJoin);
    OkEnds(m, calls, jumps, actuals, a.body, inner, NoJoin);
    ArmEnds(alts, o.value, x);
    if Use in Trace(m, calls, jumps, actuals, s, env, x) {
      TraceMoves(m, calls, jumps, actuals, s, env, x);
    } else {
      TraceMoves(m, calls, jumps, actuals, a.body, inner, x);
    }
  }

  lemma {:induction false} TraceMovesAll(m: Machine, calls: nat, jumps: nat, actuals: seq<Value>, es: Exprs, env: Env,
                                         x: string)
    requires EvalAll(m, calls, jumps, actuals, es, env, NoJoin).Oks?
    requires Use in TraceAll(m, calls, jumps, actuals, es, env, x)
    ensures MovesAll(es, x)
    decreases es
  {
    var Cons(e, tail) := es;
    OkEnds(m, calls, jumps, actuals, e, env, NoJoin);
    OkEndsAll(m, calls, jumps, actuals, tail, env, NoJoin);
    if Use in Trace(m, calls, jumps, actuals, e, env, x) {
      TraceMoves(m, calls, jumps, actuals, e, env, x);
    } else {
      TraceMovesAll(m, calls, jumps, actuals, tail, env, x);
    }
  }

  /** No execution moves the local more often than the sequential count, unless it repeats a
      scrutinee that moves it. */
  lemma {:induction false} TraceBound(m: Machine, calls: nat, jumps: nat, actuals: seq<Value>, e: Expr, env: Env,
                                      x: string)
    requires !Rereads(e, x)
    ensures MoveCount(Trace(m, calls, jumps, actuals, e, env, x)) <= SequentialUses(e, x)
    decreases e, 1
  {
    if !ScalarRead(e, x) && !SelfAppend(e, x) {
      match e
      case Lit(_) =>
      case Var(_) =>
      case Param(_) =>
      case Unreachable =>
      case Jp(_, _, _) =>
      case Prim(_, es) => TraceBoundAll(m, calls, jumps, actuals, es, env, x);
      case If(_, _, _) => TraceBoundIf(m, calls, jumps, actuals, e, env, x);
      case Let(_, _, _) => TraceBoundLet(m, calls, jumps, actuals, e, env, x);
      case Match(_, _) => TraceBoundMatch(m, calls, jumps, actuals, e, env, x);
      case Call(_, es) => TraceBoundAll(m, calls, jumps, actuals, es, env, x);
      case Jmp(_, es) => TraceBoundAll(m, calls, jumps, actuals, es, env, x);
    }
  }

  lemma {:induction false} TraceBoundIf(m: Machine, calls: nat, jumps: nat, actuals: seq<Value>, e: Expr, env: Env,
                                        x: string)
    requires e.If? && !Rereads(e, x)
    ensures MoveCount(Trace(m, calls, jumps, actuals, e, env, x)) <= SequentialUses(e, x)
    decreases e, 0
  {
    var o := Eval(m, calls, jumps, actuals, e.cond, env, NoJoin);
    var first := Trace(m, calls, jumps, actuals, e.cond, env, x);
    TraceBound(m, calls, jumps, actuals, e.cond, env, x);
    if o.Ok? && o.value.Bool? {
      var branch := if o.value.b then e.yes else e.no;
      OkEnds(m, calls, jumps, actuals, e.cond, env, NoJoin);
      TraceBound(m, calls, jumps, actuals, branch, env, x);
      MoveCountConcat(first, Trace(m, calls, jumps, actuals, branch, env, x));
    } else {
      assert first + [] == first;
    }
  }

  lemma {:induction false} TraceBoundLet(m: Machine, calls: nat, jumps: nat, actuals: seq<Value>, e: Expr, env: Env,
                                         x: string)
    requires e.Let? && !Rereads(e, x)
    ensures MoveCount(Trace(m, calls, jumps, actuals, e, env, x)) <= SequentialUses(e, x)
    decreases e, 0
  {
    var Let(y, v, b) := e;
    var o := Eval(m, calls, jumps, actuals, v, env, NoJoin);
    var first := Trace(m, calls, jumps, actuals, v, env, x);
    TraceBound(m, calls, jumps, actuals, v, env, x);
    if o.Ok? {
      OkEnds(m, calls, jumps, actuals, v, env, NoJoin);
      TraceBound(m, calls, jumps, actuals, b, env[y := o.value], x);
      MoveCountConcat(first, Trace(m, calls, jumps, actuals, b, env[y := o.value], x));
    } else {
      assert first + [] == first;
    }
  }

  /** A scrutinee that an arm repeats has not moved the local. */
  lemma AgainReads(m: Machine, calls: nat, jumps: nat, actuals: seq<Value>, e: Expr, env: Env, x: string)
    requires e.Match? && !Rereads(e, x) && Eval(m, calls, jumps, actuals, e.scrut, env, NoJoin).Ok?
    requires Select(e.alts, Eval(m, calls, jumps, actuals, e.scrut, env, NoJoin).value).Some?
    ensures var a := Select(e.alts, Eval(m, calls, jumps, actuals, e.scrut, env, NoJoin).value).value;
      !Rereads(a.body, x) && (a.again ==> Use !in Trace(m, calls, jumps, actuals, e.scrut, env, x))
  {
    var o := Eval(m, calls, jumps, actuals, e.scrut, env, NoJoin);
    OkEnds(m, calls, jumps, actuals, e.scrut, env, NoJoin);
    ArmRereads(e.alts, o.value, x, Moves(e.scrut, x));
    if Use in Trace(m, calls, jumps, actuals, e.scrut, env, x) {
      TraceMoves(m, calls, jumps, actuals, e.scrut, env, x);
    }
  }

  lemma {:induction false} TraceBoundMatch(m: Machine, calls: nat, jumps: nat, actuals: seq<Value>, e: Expr, env: Env,
                                           x: string)
    requires e.Match? && !Rereads(e, x)
    ensures MoveCount(Trace(m, calls, jumps, actuals, e, env, x)) <= SequentialUses(e, x)
    decreases e, 0
  {
    var Match(s, alts) := e;
    var o := Eval(m, calls, jumps, actuals, s, env, NoJoin);
    var first := Trace(m, calls, jumps, actuals, s, env, x);
    TraceBound(m, calls, jumps, actuals, s, env, x);
    if o.Ok? && Select(alts, o.value).Some? {
      var a := Select(alts, o.value).value;
      var inner := Bind(a.binders, a.fields, env);
      var body := Trace(m, calls, jumps, actuals, a.body, inner, x);
      AgainReads(m, calls, jumps, actuals, e, env, x);
      ArmUses(alts, o.value, x);
      TraceBound(m, calls, jumps, actuals, a.body, inner, x);
      MoveCountZero(first);
      MoveCountConcat(first, first);
      MoveCountConcat(first + first, body);
      MoveCountConcat(first, body);
    }
  }

  lemma {:induction false} TraceBoundAll(m: Machine, calls: nat, jumps: nat, actuals: seq<Value>, es: Exprs, env: Env,
                                         x: string)
    requires !RereadsAll(es, x)
    ensures MoveCount(TraceAll(m, calls, jumps, actuals, es, env, x)) <= SequentialUsesAll(es, x)
    decreases es
  {
    match es
    case Nil =>
    case Cons(e, tail) =>
      var first := Trace(m, calls, jumps, actuals, e, env, x);
      TraceBound(m, calls, jumps, actuals, e, env, x);
      if Eval(m, calls, jumps, actuals, e, env, NoJoin).Ok? {
        OkEnds(m, calls, jumps, actuals, e, env, NoJoin);
        TraceBoundAll(m, calls, jumps, actuals, tail, env, x);
        MoveCountConcat(first, TraceAll(m, calls, jumps, actuals, tail, env, x));
      } else {
        assert first + [] == first;
      }
  }

  /** Nothing but length reads before the last event. */
  predicate LastOnly(t: seq<Event>) {
    forall i :: 0 <= i < |t| - 1 ==> t[i] == Read
  }

  /** A sequential count of at most one: length reads, then at most one further use. */
  lemma {:induction false} TraceLast(m: Machine, calls: nat, jumps: nat, actuals: seq<Value>, e: Expr, env: Env,
                                     x: string)
    requires SequentialUses(e, x) <= 1 && !Rereads(e, x)
    ensures LastOnly(Trace(m, calls, jumps, actuals, e, env, x))
    decreases e, 1
  {
    if !ScalarRead(e, x) && !SelfAppend(e, x) {
      match e
      case Lit(_) =>
      case Var(_) =>
      case Param(_) =>
      case Unreachable =>
      case Jp(_, _, _) =>
      case Prim(_, es) => TraceLastAll(m, calls, jumps, actuals, es, env, x);
      case If(_, _, _) => TraceLastIf(m, calls, jumps, actuals, e, env, x);
      case Let(_, _, _) => TraceLastLet(m, calls, jumps, actuals, e, env, x);
      case Match(_, _) => TraceLastMatch(m, calls, jumps, actuals, e, env, x);
      case Call(_, es) => TraceLastAll(m, calls, jumps, actuals, es, env, x);
      case Jmp(_, es) => TraceLastAll(m, calls, jumps, actuals, es, env, x);
    }
  }

  lemma {:induction false} TraceLastIf(m: Machine, calls: nat, jumps: nat, actuals: seq<Value>, e: Expr, env: Env,
                                       x: string)
    requires e.If? && SequentialUses(e, x) <= 1 && !Rereads(e, x)
    ensures LastOnly(Trace(m, calls, jumps, actuals, e, env, x))
    decreases e, 0
  {
    var o := Eval(m, calls, jumps, actuals, e.cond, env, NoJoin);
    TraceLast(m, calls, jumps, actuals, e.cond, env, x);
    if o.Ok? && o.value.Bool? {
      var branch := if o.value.b then e.yes else e.no;
      OkEnds(m, calls, jumps, actuals, e.cond, env, NoJoin);
      TraceLast(m, calls, jumps, actuals, branch, env, x);
      OneEmpty(m, calls, jumps, actuals, e.cond, env, branch, env, x);
    }
  }

  /** Of two terms with at most one use in a row, one leaves no trace. */
  lemma OneEmpty(m: Machine, calls: nat, jumps: nat, actuals: seq<Value>, first: Expr, env1: Env,
                 second: Expr, env2: Env, x: string)
    requires SequentialUses(first, x) + SequentialUses(second, x) <= 1
    ensures Trace(m, calls, jumps, actuals, first, env1, x) == []
        || Trace(m, calls, jumps, actuals, second, env2, x) == []
  {
    SequentialZero(first, x);
    SequentialZero(second, x);
    if VarUses(first, x) == 0 {
      TraceZero(m, calls, jumps, actuals, first, env1, x);
    } else {
      TraceZero(m, calls, jumps, actuals, second, env2, x);
    }
  }

  lemma {:induction false} TraceLastLet(m: Machine, calls: nat, jumps: nat, actuals: seq<Value>, e: Expr, env: Env,
                                        x: string)
    requires e.Let? && SequentialUses(e, x) <= 1 && !Rereads(e, x)
    ensures LastOnly(Trace(m, calls, jumps, actuals, e, env, x))
    decreases e, 0
  {
    var Let(y, v, b) := e;
    var o := Eval(m, calls, jumps, actuals, v, env, NoJoin);
    TraceLast(m, calls, jumps, actuals, v, env, x);
    if o.Ok? {
      OkEnds(m, calls, jumps, actuals, v, env, NoJoin);
      TraceLast(m, calls, jumps, actuals, b, env[y := o.value], x);
      OneEmpty(m, calls, jumps, actuals, v, env, b, env[y := o.value], x);
    }
  }

  lemma {:induction false} TraceLastMatch(m: Machine, calls: nat, jumps: nat, actuals: seq<Value>, e: Expr, env: Env,
                                          x: string)
    requires e.Match? && SequentialUses(e, x) <= 1 && !Rereads(e, x)
    ensures LastOnly(Trace(m, calls, jumps, actuals, e, env, x))
    decreases e, 0
  {
    var Match(s, alts) := e;
    var o := Eval(m, calls, jumps, actuals, s, env, NoJoin);
    TraceLast(m, calls, jumps, actuals, s, env, x);
    if o.Ok? && Select(alts, o.value).Some? {
      var a := Select(alts, o.value).value;
      var inner := Bind(a.binders, a.fields, env);
      AgainReads(m, calls, jumps, actuals, e, env, x);
      ArmUses(alts, o.value, x);
      TraceLast(m, calls, jumps, actuals, a.body, inner, x);
      OneEmpty(m, calls, jumps, actuals, s, env, a.body, inner, x);
      AgainLast(Trace(m, calls, jumps, actuals, s, env, x), Trace(m, calls, jumps, actuals, a.body, inner, x), a.again);
    }
  }

  lemma AgainLast(first: seq<Event>, body: seq<Event>, again: bool)
    requires LastOnly(first) && LastOnly(body) && (first == [] || body == []) && (again ==> Use !in first)
    ensures LastOnly(if again then first + first + body else first + body)
  {
    if again && body == [] {
      forall i | 0 <= i < |first + first|
        ensures (first + first)[i] == Read
      {
        assert first[if i < |first| then i else i - |first|] in first;
      }
    }
  }

  lemma {:induction false} TraceLastAll(m: Machine, calls: nat, jumps: nat, actuals: seq<Value>, es: Exprs, env: Env,
                                        x: string)
    requires SequentialUsesAll(es, x) <= 1 && !RereadsAll(es, x)
    ensures LastOnly(TraceAll(m, calls, jumps, actuals, es, env, x))
    decreases es
  {
    match es
    case Nil =>
    case Cons(e, tail) =>
      TraceLast(m, calls, jumps, actuals, e, env, x);
      if Eval(m, calls, jumps, actuals, e, env, NoJoin).Ok? {
        OkEnds(m, calls, jumps, actuals, e, env, NoJoin);
        TraceLastAll(m, calls, jumps, actuals, tail, env, x);
        SequentialZero(e, x);
        SequentialZeroAll(tail, x);
        if VarUses(e, x) == 0 {
          TraceZero(m, calls, jumps, actuals, e, env, x);
        } else {
          TraceZeroAll(m, calls, jumps, actuals, tail, env, x);
        }
      }
  }

  /** A path count of at most one, and no repeated scrutinee that moves the local: on every
      execution, length reads and then at most one further use, so the value may be moved. */
  lemma {:induction false} NoUseAfterMove(m: Machine, calls: nat, jumps: nat, actuals: seq<Value>, e: Expr, env: Env,
                                          x: string)
    requires PathUses(e, x) <= 1 && !Rereads(e, x)
    ensures LastOnly(Trace(m, calls, jumps, actuals, e, env, x))
    decreases e, 1
  {
    if Leading(e, x) {
      NoUseLeading(m, calls, jumps, actuals, e, env, x);
    } else if e.If? && VarUses(e.cond, x) == 0 {
      var o := Eval(m, calls, jumps, actuals, e.cond, env, NoJoin);
      TraceZero(m, calls, jumps, actuals, e.cond, env, x);
      if o.Ok? && o.value.Bool? {
        OkEnds(m, calls, jumps, actuals, e.cond, env, NoJoin);
        NoUseAfterMove(m, calls, jumps, actuals, if o.value.b then e.yes else e.no, env, x);
      }
    } else if e.Match? && VarUses(e.scrut, x) == 0 {
      var o := Eval(m, calls, jumps, actuals, e.scrut, env, NoJoin);
      TraceZero(m, calls, jumps, actuals, e.scrut, env, x);
      if o.Ok? && Select(e.alts, o.value).Some? {
        var a := Select(e.alts, o.value).value;
        AgainReads(m, calls, jumps, actuals, e, env, x);
        ArmUses(e.alts, o.value, x);
        NoUseAfterMove(m, calls, jumps, actuals, a.body, Bind(a.binders, a.fields, env), x);
      }
    } else {
      TraceLast(m, calls, jumps, actuals, e, env, x);
    }
  }

  lemma {:induction false} NoUseLeading(m: Machine, calls: nat, jumps: nat, actuals: seq<Value>, e: Expr, env: Env,
                                        x: string)
    requires Leading(e, x) && PathUses(e, x) <= 1 && !Rereads(e, x)
    ensures LastOnly(Trace(m, calls, jumps, actuals, e, env, x))
    decreases e, 0
  {
    var o := Eval(m, calls, jumps, actuals, e.value, env, NoJoin);
    if !ScalarRead(e.value, x) {
      TraceZero(m, calls, jumps, actuals, e.value, env, x);
    }
    if o.Ok? {
      OkEnds(m, calls, jumps, actuals, e.value, env, NoJoin);
      NoUseAfterMove(m, calls, jumps, actuals, e.body, env[e.name := o.value], x);
    }
  }
}
