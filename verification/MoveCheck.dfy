/** The compiler's move check on emitted code.

    The renderer moves a local that counts at most once on a path.  The arm of `Nat.succ`
    repeats the text of its scrutinee, so what is counted once can be moved twice.
    `MovedOnceCompiles` says exactly when the compiler accepts the result.
 */
module MoveCheck {
  import opened Ir
  import opened Semantics
  import opened PathUses

  /** What the compiler knows of a local that is moved and never copied: still there, moved on
      some path, past the end of every path, or used after a move. */
  datatype Flow = Mine | Gone | Dead | Refused

  function Join(a: Flow, b: Flow): Flow {
    if a.Refused? || b.Refused? then Refused
    else if a.Dead? then b
    else if b.Dead? || a.Gone? then a
    else b
  }

  /** The check along the emitted code of a term without joins: an arm that repeats its
      scrutinee runs the scrutinee's text once more. */
  function After(e: Expr, x: string, f: Flow): Flow
    decreases e
  {
    if f.Dead? || f.Refused? then f
    else if ScalarRead(e, x) then (if f.Gone? then Refused else f)
    else if SelfAppend(e, x) then (if f.Gone? then Refused else Gone)
    else match e
    case Lit(_) => f
    case Var(y) => if y != x then f else if f.Gone? then Refused else Gone
    case Param(_) => f
    case Prim(_, es) => AfterAll(es, x, f)
    case If(c, t, u) => var g := After(c, x, f); Join(After(t, x, g), After(u, x, g))
    case Let(_, v, b) => After(b, x, After(v, x, f))
    case Match(s, alts) => var g := After(s, x, f); AfterAlts(alts, x, g, After(s, x, g))
    case Call(_, es) => AfterAll(es, x, f)
    case Jp(_, _, _) => f
    case Jmp(_, es) => AfterAll(es, x, f)
    case Unreachable => Dead
  }

  function AfterAll(es: Exprs, x: string, f: Flow): Flow
    decreases es
  {
    match es
    case Nil => f
    case Cons(e, tail) => AfterAll(tail, x, After(e, x, f))
  }

  /** `again` is the state after the scrutinee's text was repeated. */
  function AfterAlts(alts: Alts, x: string, f: Flow, again: Flow): Flow
    decreases alts
  {
    match alts
    case NoMore => if f.Refused? then Refused else Dead
    case Default(b) => After(b, x, f)
    case Alt(c, bs, b, rest) =>
      Join(After(b, x, if Repeats(c, |bs|) then again else f), AfterAlts(rest, x, f, again))
  }

  /** The flow of a term that is checked from the state `Mine`. */
  function Expected(e: Expr, x: string): Flow {
    if Rereads(e, x) then Refused else if !Ends(e) then Dead else if Moves(e, x) then Gone else Mine
  }

  lemma {:induction false} MovesEnd(e: Expr, x: string)
    requires JoinFree(e) && Moves(e, x)
    ensures Ends(e)
    decreases e
  {
    match e
    case Var(_) =>
    case Prim(_, es) =>
      if SelfAppend(e, x) {
        OperandsEnd(e, x);
      } else {
        MovesEndAll(es, x);
      }
    case If(c, t, u) =>
      if Moves(c, x) { MovesEnd(c, x); }
      if Moves(t, x) { MovesEnd(t, x); }
      if Moves(u, x) { MovesEnd(u, x); }
    case Let(_, v, b) =>
      if Moves(v, x) { MovesEnd(v, x); }
      if Moves(b, x) { MovesEnd(b, x); }
    case Match(s, alts) =>
      if Moves(s, x) { MovesEnd(s, x); }
      if MovesAlts(alts, x) { MovesEndAlts(alts, x); }
    case Call(_, es) => MovesEndAll(es, x);
  }

  lemma {:induction false} MovesEndAll(es: Exprs, x: string)
    requires JoinFreeAll(es) && MovesAll(es, x)
    ensures EndsAll(es)
    decreases es
  {
    if Moves(es.head, x) {
      MovesEnd(es.head, x);
    }
    if MovesAll(es.tail, x) {
      MovesEndAll(es.tail, x);
    }
  }

  lemma {:induction false} MovesEndAlts(alts: Alts, x: string)
    requires JoinFreeAlts(alts) && MovesAlts(alts, x)
    ensures EndsAlts(alts)
    decreases alts
  {
    match alts
    case Default(b) => MovesEnd(b, x);
    case Alt(_, _, b, rest) =>
      if Moves(b, x) {
        MovesEnd(b, x);
      } else {
        MovesEndAlts(rest, x);
      }
  }

  /** A term that does not end does not move the local on a path to its end. */
  lemma NoEndNoMove(e: Expr, x: string)
    requires JoinFree(e)
    ensures Moves(e, x) ==> Ends(e)
  {
    if Moves(e, x) {
      MovesEnd(e, x);
    }
  }

  lemma {:induction false} FlowStops(e: Expr, x: string, f: Flow)
    requires f.Dead? || f.Refused?
    ensures After(e, x, f) == f
  {}

  lemma {:induction false} FlowStopsAll(es: Exprs, x: string, f: Flow)
    requires f.Dead? || f.Refused?
    ensures AfterAll(es, x, f) == f
  {
    if es.Cons? {
      FlowStopsAll(es.tail, x, f);
    }
  }

  lemma {:induction false} FlowStopsAlts(alts: Alts, x: string, f: Flow)
    requires f.Dead? || f.Refused?
    ensures AfterAlts(alts, x, f, f) == f
  {
    if alts.Alt? {
      FlowStopsAlts(alts.rest, x, f);
    }
  }

  /** Where `x` does not occur nothing happens to it. */
  lemma {:induction false} FlowZero(e: Expr, x: string, f: Flow)
    requires VarUses(e, x) == 0 && (f.Mine? || f.Gone?)
    ensures After(e, x, f) == if Ends(e) then f else Dead
    decreases e, 1
  {
    match e
    case Lit(_) =>
    case Var(_) =>
    case Param(_) =>
    case Unreachable =>
    case Jp(_, _, _) =>
    case Prim(_, _) => FlowZeroPrim(e, x, f);
    case If(c, t, u) =>
      FlowZero(c, x, f);
      FlowZero(t, x, f);
      FlowZero(u, x, f);
    case Let(_, v, b) =>
      FlowZero(v, x, f);
      FlowZero(b, x, f);
    case Match(s, alts) =>
      FlowZero(s, x, f);
      if Ends(s) {
        FlowZeroAlts(alts, x, f);
      } else {
        FlowStopsAlts(alts, x, Dead);
      }
    case Call(_, es) => FlowZeroAll(es, x, f);
    case Jmp(_, es) => FlowZeroAll(es, x, f);
  }

  lemma {:induction false} FlowZeroPrim(e: Expr, x: string, f: Flow)
    requires e.Prim? && VarUses(e, x) == 0 && (f.Mine? || f.Gone?)
    ensures !ScalarRead(e, x) && !SelfAppend(e, x)
    ensures After(e, x, f) == if Ends(e) then f else Dead
    decreases e, 0
  {
    assert ScalarRead(e, x) || SelfAppend(e, x) ==> VarUsesAll(e.args, x) >= VarUses(Var(x), x);
    FlowZeroAll(e.args, x, f);
  }

  lemma {:induction false} FlowZeroAll(es: Exprs, x: string, f: Flow)
    requires VarUsesAll(es, x) == 0 && (f.Mine? || f.Gone?)
    ensures AfterAll(es, x, f) == if EndsAll(es) then f else Dead
    decreases es
  {
    match es
    case Nil =>
    case Cons(e, tail) =>
      FlowZero(e, x, f);
      if Ends(e) {
        FlowZeroAll(tail, x, f);
      } else {
        FlowStopsAll(tail, x, Dead);
      }
  }

  lemma {:induction false} FlowZeroAlts(alts: Alts, x: string, f: Flow)
    requires VarUsesAlts(alts, x) == 0 && (f.Mine? || f.Gone?)
    ensures AfterAlts(alts, x, f, f) == if EndsAlts(alts) then f else Dead
    decreases alts
  {
    match alts
    case NoMore =>
    case Default(b) => FlowZero(b, x, f);
    case Alt(_, _, b, rest) =>
      FlowZero(b, x, f);
      FlowZeroAlts(rest, x, f);
  }

  /** Moving again what some path moved is refused. */
  lemma {:induction false} FlowGone(e: Expr, x: string)
    requires JoinFree(e) && SequentialUses(e, x) <= 1 && Moves(e, x)
    ensures After(e, x, Gone) == Refused
    decreases e, 1
  {
    match e
    case Var(_) =>
    case Prim(_, es) => if !SelfAppend(e, x) { FlowGoneAll(es, x); }
    case If(_, _, _) => FlowGoneIf(e, x);
    case Let(_, _, _) => FlowGoneLet(e, x);
    case Match(_, _) => FlowGoneMatch(e, x);
    case Call(_, es) => FlowGoneAll(es, x);
  }

  lemma {:induction false} FlowGoneIf(e: Expr, x: string)
    requires e.If? && JoinFree(e) && SequentialUses(e, x) <= 1 && Moves(e, x)
    ensures After(e, x, Gone) == Refused
    decreases e, 0
  {
    var If(c, t, u) := e;
    if Moves(c, x) {
      FlowGone(c, x);
      FlowStops(t, x, Refused);
    } else {
      var b := if Moves(t, x) then t else u;
      OneOfTwo(c, b, x);
      FlowZero(c, x, Gone);
      FlowGone(b, x);
    }
  }

  /** With at most one use in a row, the second term has it if it moves. */
  lemma OneOfTwo(first: Expr, second: Expr, x: string)
    requires SequentialUses(first, x) + SequentialUses(second, x) <= 1 && Moves(second, x)
    ensures VarUses(first, x) == 0
  {
    if VarUses(second, x) == 0 {
      MovesUses(second, x);
    }
    SequentialZero(first, x);
    SequentialZero(second, x);
  }

  lemma {:induction false} FlowGoneLet(e: Expr, x: string)
    requires e.Let? && JoinFree(e) && SequentialUses(e, x) <= 1 && Moves(e, x)
    ensures After(e, x, Gone) == Refused
    decreases e, 0
  {
    var Let(_, v, b) := e;
    if Moves(v, x) {
      FlowGone(v, x);
      FlowStops(b, x, Refused);
    } else {
      OneOfTwo(v, b, x);
      FlowZero(v, x, Gone);
      FlowGone(b, x);
    }
  }

  lemma {:induction false} FlowGoneMatch(e: Expr, x: string)
    requires e.Match? && JoinFree(e) && SequentialUses(e, x) <= 1 && Moves(e, x)
    ensures After(e, x, Gone) == Refused
    decreases e, 0
  {
    var Match(s, alts) := e;
    if Moves(s, x) {
      FlowGone(s, x);
      FlowStopsAlts(alts, x, Refused);
    } else {
      if VarUsesAlts(alts, x) == 0 {
        MovesUsesAlts(alts, x);
      }
      SequentialZero(s, x);
      SequentialZeroAlts(alts, x);
      FlowZero(s, x, Gone);
      FlowGoneAlts(alts, x);
    }
  }

  lemma {:induction false} FlowGoneAll(es: Exprs, x: string)
    requires JoinFreeAll(es) && SequentialUsesAll(es, x) <= 1 && MovesAll(es, x)
    ensures AfterAll(es, x, Gone) == Refused
    decreases es
  {
    var Cons(e, tail) := es;
    if Moves(e, x) {
      FlowGone(e, x);
      FlowStopsAll(tail, x, Refused);
    } else {
      if VarUsesAll(tail, x) == 0 {
        MovesUsesAll(tail, x);
      }
      SequentialZero(e, x);
      SequentialZeroAll(tail, x);
      FlowZero(e, x, Gone);
      FlowGoneAll(tail, x);
    }
  }

  lemma {:induction false} FlowGoneAlts(alts: Alts, x: string)
    requires JoinFreeAlts(alts) && SequentialUsesAlts(alts, x) <= 1 && MovesAlts(alts, x)
    ensures AfterAlts(alts, x, Gone, Gone) == Refused
    decreases alts
  {
    match alts
    case Default(b) => FlowGone(b, x);
    case Alt(_, _, b, rest) =>
      if Moves(b, x) {
        FlowGone(b, x);
      } else {
        FlowGoneAlts(rest, x);
      }
  }

  /** With at most one use on a path, the emitted code is refused exactly when a repeated
      scrutinee moves the local; otherwise it is gone exactly when some path moves it. */
  lemma {:induction false} FlowExact(e: Expr, x: string)
    requires JoinFree(e) && SequentialUses(e, x) <= 1
    ensures After(e, x, Mine) == Expected(e, x)
    decreases e, 1
  {
    match e
    case Lit(_) =>
    case Var(_) =>
    case Param(_) =>
    case Unreachable =>
    case Prim(_, _) => FlowExactPrim(e, x);
    case If(_, _, _) => FlowExactIf(e, x);
    case Let(_, _, _) => FlowExactLet(e, x);
    case Match(_, _) => FlowExactMatch(e, x);
    case Call(_, es) => FlowExactAll(es, x);
  }

  lemma {:induction false} FlowExactPrim(e: Expr, x: string)
    requires e.Prim? && JoinFree(e) && SequentialUses(e, x) <= 1
    ensures After(e, x, Mine) == Expected(e, x)
    decreases e, 0
  {
    if ScalarRead(e, x) || SelfAppend(e, x) {
      OperandsEnd(e, x);
    } else {
      FlowExactAll(e.args, x);
    }
  }

  lemma OperandsEnd(e: Expr, x: string)
    requires ScalarRead(e, x) || SelfAppend(e, x)
    ensures Ends(e) && !Rereads(e, x)
  {
    var v, tail := Var(x), e.args.tail;
    assert Ends(v) && !Rereads(v, x);
    assert tail.Cons? ==> EndsAll(tail.tail) && !RereadsAll(tail.tail, x);
    assert EndsAll(tail) && !RereadsAll(tail, x);
    assert EndsAll(e.args) && !RereadsAll(e.args, x);
  }

  /** Checking one term after another, of which one leaves `x` alone. */
  lemma {:induction false} FlowExactPair(first: Expr, second: Expr, x: string)
    requires JoinFree(first) && JoinFree(second) && SequentialUses(first, x) + SequentialUses(second, x) <= 1
    requires After(first, x, Mine) == Expected(first, x) && After(second, x, Mine) == Expected(second, x)
    ensures After(second, x, After(first, x, Mine))
         == if Rereads(first, x) || (Ends(first) && Rereads(second, x)) then Refused
            else if !Ends(first) || !Ends(second) then Dead
            else if Moves(first, x) || Moves(second, x) then Gone
            else Mine
  {
    SequentialZero(first, x);
    SequentialZero(second, x);
    if VarUses(second, x) == 0 {
      MovesUses(second, x);
      var f := After(first, x, Mine);
      if f.Mine? || f.Gone? {
        FlowZero(second, x, f);
      } else {
        FlowStops(second, x, f);
      }
    } else {
      MovesUses(first, x);
      FlowZero(first, x, Mine);
    }
  }

  lemma {:induction false} FlowExactIf(e: Expr, x: string)
    requires e.If? && JoinFree(e) && SequentialUses(e, x) <= 1
    ensures After(e, x, Mine) == Expected(e, x)
    decreases e, 0
  {
    FlowExact(e.cond, x);
    FlowExact(e.yes, x);
    FlowExact(e.no, x);
    FlowExactPair(e.cond, e.yes, x);
    FlowExactPair(e.cond, e.no, x);
    NoEndNoMove(e.yes, x);
    NoEndNoMove(e.no, x);
  }

  lemma {:induction false} FlowExactLet(e: Expr, x: string)
    requires e.Let? && JoinFree(e) && SequentialUses(e, x) <= 1
    ensures After(e, x, Mine) == Expected(e, x)
    decreases e, 0
  {
    FlowExact(e.value, x);
    FlowExact(e.body, x);
    FlowExactPair(e.value, e.body, x);
  }

  lemma {:induction false} FlowExactMatch(e: Expr, x: string)
    requires e.Match? && JoinFree(e) && SequentialUses(e, x) <= 1
    ensures After(e, x, Mine) == Expected(e, x)
    decreases e, 0
  {
    var Match(s, alts) := e;
    FlowExact(s, x);
    SequentialZero(s, x);
    SequentialZeroAlts(alts, x);
    var f := After(s, x, Mine);
    if VarUses(s, x) == 0 {
      MovesUses(s, x);
      FlowZero(s, x, Mine);
      FlowExactAlts(alts, x);
      FlowStopsAlts(alts, x, Dead);
    } else {
      MovesUsesAlts(alts, x);
      FlowAfterScrutinee(s, alts, x, f);
    }
  }

  /** A scrutinee with the one use: arms that repeat it are refused if it moves. */
  lemma {:induction false} FlowAfterScrutinee(s: Expr, alts: Alts, x: string, f: Flow)
    requires JoinFree(s) && SequentialUses(s, x) <= 1 && VarUsesAlts(alts, x) == 0
    requires f == After(s, x, Mine) == Expected(s, x)
    ensures AfterAlts(alts, x, f, After(s, x, f))
         == if Rereads(s, x) || (Ends(s) && RereadsAlts(alts, x, Moves(s, x))) then Refused
            else if !Ends(s) || !EndsAlts(alts) then Dead
            else if Moves(s, x) then Gone
            else Mine
  {
    MovesUsesAlts(alts, x);
    match f
    case Refused =>
      FlowStops(s, x, f);
      FlowStopsAlts(alts, x, f);
    case Dead =>
      FlowStops(s, x, f);
      FlowStopsAlts(alts, x, f);
    case Gone =>
      FlowGone(s, x);
      FlowAgainAlts(alts, x, f);
    case Mine => FlowZeroAlts(alts, x, f);
  }

  lemma {:induction false} FlowAgainAlts(alts: Alts, x: string, f: Flow)
    requires VarUsesAlts(alts, x) == 0 && (f.Mine? || f.Gone?)
    ensures AfterAlts(alts, x, f, Refused)
         == if RereadsAlts(alts, x, true) then Refused else if EndsAlts(alts) then f else Dead
    decreases alts
  {
    match alts
    case NoMore =>
    case Default(b) =>
      MovesUses(b, x);
      FlowZero(b, x, f);
    case Alt(_, _, b, rest) =>
      MovesUses(b, x);
      FlowZero(b, x, f);
      FlowStops(b, x, Refused);
      FlowAgainAlts(rest, x, f);
  }

  lemma {:induction false} FlowExactAll(es: Exprs, x: string)
    requires JoinFreeAll(es) && SequentialUsesAll(es, x) <= 1
    ensures AfterAll(es, x, Mine)
         == if RereadsAll(es, x) then Refused else if !EndsAll(es) then Dead else if MovesAll(es, x) then Gone else Mine
    decreases es
  {
    match es
    case Nil =>
    case Cons(e, tail) =>
      FlowExact(e, x);
      FlowExactAll(tail, x);
      SequentialZero(e, x);
      SequentialZeroAll(tail, x);
      if VarUsesAll(tail, x) == 0 {
        MovesUsesAll(tail, x);
        var f := After(e, x, Mine);
        if f.Mine? || f.Gone? {
          FlowZeroAll(tail, x, f);
        } else {
          FlowStopsAll(tail, x, f);
        }
      } else {
        MovesUses(e, x);
        FlowZero(e, x, Mine);
        FlowStopsAll(tail, x, Dead);
      }
  }

  lemma {:induction false} FlowExactAlts(alts: Alts, x: string)
    requires JoinFreeAlts(alts) && SequentialUsesAlts(alts, x) <= 1
    ensures AfterAlts(alts, x, Mine, Mine)
         == if RereadsAlts(alts, x, false) then Refused
            else if !EndsAlts(alts) then Dead
            else if MovesAlts(alts, x) then Gone
            else Mine
    decreases alts
  {
    match alts
    case NoMore =>
    case Default(b) => FlowExact(b, x);
    case Alt(_, _, b, rest) =>
      FlowExact(b, x);
      FlowExactAlts(rest, x);
      NoEndNoMove(b, x);
      if MovesAlts(rest, x) {
        MovesEndAlts(rest, x);
      }
  }

  /** The same for the count the renderer uses, which skips leading reads: a local that counts
      at most once and is therefore moved compiles if and only if no reachable arm repeats a
      scrutinee that moves it. */
  lemma {:induction false} MovedOnceCompiles(e: Expr, x: string)
    requires JoinFree(e) && PathUses.PathUses(e, x) <= 1
    ensures After(e, x, Mine) == Expected(e, x)
    decreases e, 1
  {
    if Leading(e, x) {
      LeadingFlow(e, x);
      MovedOnceCompiles(e.body, x);
    } else if e.If? && VarUses(e.cond, x) == 0 {
      MovesUses(e.cond, x);
      FlowZero(e.cond, x, Mine);
      MovedOnceCompiles(e.yes, x);
      MovedOnceCompiles(e.no, x);
      NoEndNoMove(e.yes, x);
      NoEndNoMove(e.no, x);
    } else if e.Match? && VarUses(e.scrut, x) == 0 {
      MovesUses(e.scrut, x);
      FlowZero(e.scrut, x, Mine);
      MovedOnceCompilesAlts(e.alts, x);
      FlowStopsAlts(e.alts, x, Dead);
    } else {
      FlowExact(e, x);
    }
  }

  lemma LeadingFlow(e: Expr, x: string)
    requires Leading(e, x)
    ensures After(e.value, x, Mine) == (if Ends(e.value) then Mine else Dead)
    ensures !Moves(e.value, x) && !Rereads(e.value, x)
  {
    if ScalarRead(e.value, x) {
      OperandsEnd(e.value, x);
    } else {
      MovesUses(e.value, x);
      FlowZero(e.value, x, Mine);
    }
  }

  lemma {:induction false} MovedOnceCompilesAlts(alts: Alts, x: string)
    requires JoinFreeAlts(alts) && PathUsesAlts(alts, x) <= 1
    ensures AfterAlts(alts, x, Mine, Mine)
         == if RereadsAlts(alts, x, false) then Refused
            else if !EndsAlts(alts) then Dead
            else if MovesAlts(alts, x) then Gone
            else Mine
    decreases alts
  {
    match alts
    case NoMore =>
    case Default(b) => MovedOnceCompiles(b, x);
    case Alt(_, _, b, rest) =>
      MovedOnceCompiles(b, x);
      MovedOnceCompilesAlts(rest, x);
      NoEndNoMove(b, x);
      if MovesAlts(rest, x) {
        MovesEndAlts(rest, x);
      }
  }
}
