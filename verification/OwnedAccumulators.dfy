/** Lists accumulated in place (`owned_accumulators.rs`).

    Every accepted list formal is held in a buffer of its own.  An owning use hands the
    buffer over and a later use is an error; `append` and `List.cons` then grow the buffer
    itself.  `TakeOwned` and `OwnedTurn` show that the error never happens and that the
    destructive code computes what the pure one does; `RunOwned` is the loop of a planned
    worker, `RunOnce` one activation of a worker without a loop.
 */
module OwnedAccumulators {
  import opened Ir
  import opened Semantics
  import opened PathUses
  import opened TailCalls
  import opened OwningUses
  import opened Wrappers
  import MoveCheck
  import Naming
  import UsePlaces

  // ---- which formals may be owned ----

  /** A list formal used exactly once on some path, only in owning positions, of a
      definition that returns an owned record. */
  predicate Candidate(d: Definition, index: nat)
    requires |d.types| == |d.params|
  {
    && d.ret.Named?
    && index < |d.params| && d.types[index].List?
    && PathUses.PathUses(d.body, d.params[index]) == 1
    && OwnedUses(d.body, d.params[index], index, d.name, false)
  }

  /** Candidates are taken by value; other lists keep whatever borrowing they had. */
  function Borrowed(d: Definition, borrowing: seq<bool>): (r: seq<bool>)
    requires |d.types| == |d.params| == |borrowing|
    ensures |r| == |d.params|
  {
    seq(|d.params|, i requires 0 <= i < |d.params| => borrowing[i] && !Candidate(d, i))
  }

  ghost predicate Lowering(d: Definition, borrowed: seq<bool>, marks: seq<bool>)
    requires |borrowed| == |d.params|
  {
    |marks| == |d.params| && Lowers(d.body, true, Plan(d.name, d.params, borrowed, marks))
  }

  /** A candidate that every way of lowering the self calls assigns, when there is one.
      `copies` says that the returned record is a plain copyable value. */
  ghost predicate Accepted(d: Definition, borrowing: seq<bool>, copies: bool, i: nat)
    requires |d.types| == |d.params| == |borrowing|
  {
    && !copies && Candidate(d, i) && !NoSelfCall(d.body, d.name)
    && (exists marks :: Lowering(d, Borrowed(d, borrowing), marks))
    && (forall marks :: Lowering(d, Borrowed(d, borrowing), marks) ==> marks[i])
  }

  // ---- the same, by places ----

  /** A list formal of a definition that returns an owned record: some path counts an occurrence
      of it, no path counts two, and whatever stands above an occurrence consumes it. */
  ghost predicate Ownable(d: Definition, i: nat)
    requires |d.types| == |d.params|
  {
    && d.ret.Named? && i < |d.params| && d.types[i].List?
    && UsePlaces.CountedIn(d.body, d.params[i]) && !UsePlaces.CountedTwice(d.body, d.params[i])
    && Owning(d.body, d.params[i], i, d.name, false)
  }

  lemma CandidateExactly(d: Definition, i: nat)
    requires |d.types| == |d.params|
    ensures Candidate(d, i) <==> Ownable(d, i)
  {
    if i < |d.params| {
      UsePlaces.CountsPlaces(d.body, d.params[i]);
      OwnedExactly(d.body, d.params[i], i, d.name, false);
    }
  }

  ghost function Lent(d: Definition, borrowing: seq<bool>): (r: seq<bool>)
    requires |d.types| == |d.params| == |borrowing|
    ensures |r| == |d.params|
  {
    seq(|d.params|, i requires 0 <= i < |d.params| => borrowing[i] && !Ownable(d, i))
  }

  /** Ownable, and replaced by some self call of a body whose self calls are all in tail places
      and hand on what stays borrowed. */
  ghost predicate Replaced(d: Definition, borrowing: seq<bool>, copies: bool, i: nat)
    requires |d.types| == |d.params| == |borrowing|
  {
    !copies && Ownable(d, i) && Plannable(d, Lent(d, borrowing)) && Reassigned(d, i)
  }

  lemma LentExactly(d: Definition, borrowing: seq<bool>)
    requires |d.types| == |d.params| == |borrowing|
    ensures Lent(d, borrowing) == Borrowed(d, borrowing)
  {
    forall i | 0 <= i < |d.params| ensures Lent(d, borrowing)[i] == Borrowed(d, borrowing)[i] {
      CandidateExactly(d, i);
    }
  }

  lemma AcceptedExactly(d: Definition, borrowing: seq<bool>, copies: bool, i: nat)
    requires |d.types| == |d.params| == |borrowing|
    ensures Accepted(d, borrowing, copies, i) <==> Replaced(d, borrowing, copies, i)
  {
    CandidateExactly(d, i);
    LentExactly(d, borrowing);
    SelfCallExactly(d.body, d.name);
    var borrowed, least := Borrowed(d, borrowing), Reassignments(d);
    if Accepted(d, borrowing, copies, i) {
      var marks :| Lowering(d, borrowed, marks);
      LowersPlannable(d, borrowed, marks);
      PlannableLowers(d, borrowed);
      assert Lowering(d, borrowed, least);
    }
    if Replaced(d, borrowing, copies, i) {
      PlannableLowers(d, borrowed);
      assert Lowering(d, borrowed, least);
      forall marks | Lowering(d, borrowed, marks) ensures marks[i] {
        LowersPlannable(d, borrowed, marks);
      }
    }
  }

  lemma AcceptedEach(d: Definition, borrowing: seq<bool>, copies: bool)
    requires |d.types| == |d.params| == |borrowing|
    ensures forall i :: Accepted(d, borrowing, copies, i) <==> Replaced(d, borrowing, copies, i)
  {
    forall i
      ensures Accepted(d, borrowing, copies, i) <==> Replaced(d, borrowing, copies, i)
    {
      AcceptedExactly(d, borrowing, copies, i);
    }
  }

  /** The formals to own. */
  method Parameters(d: Definition, borrowing: seq<bool>, copies: bool) returns (owned: set<nat>)
    requires |d.types| == |d.params| == |borrowing|
    ensures forall i :: i in owned <==> Accepted(d, borrowing, copies, i)
    ensures forall i :: i in owned <==> Replaced(d, borrowing, copies, i)
    ensures owned != {} ==>
      exists changed :: Lowering(d, Borrowed(d, borrowing), changed)
        && forall i :: Candidate(d, i) && i !in owned ==> !changed[i]
  {
    AcceptedEach(d, borrowing, copies);
    if copies || !d.ret.Named? {
      return {};
    }
    var candidates := set i | 0 <= i < |d.params| && Candidate(d, i);
    if candidates == {} {
      assert forall i :: Candidate(d, i) ==> i in candidates;
      return {};
    }
    var borrowed := Borrowed(d, borrowing);
    var plan := MakePlan(d, borrowed);
    if plan.None? {
      return {};
    }
    var changed := plan.value.changed;
    assert Lowering(d, borrowed, changed);
    owned := set i | i in candidates && changed[i];
    forall marks, i | Lowering(d, borrowed, marks) && i in owned
      ensures marks[i]
    {
      assert Below(changed, marks);
    }
  }

  // ---- values that may hold a buffer ----

  /** `Buffer` is the storage of an accumulator itself, not a copy of its contents. */
  datatype Held = Plain(value: Value) | Buffer(owner: string) | Record(name: string, fields: seq<Held>)

  type Heaps = map<string, Value>

  /** What each buffer contains, and the formals that still own theirs. */
  datatype Store = Store(heaps: Heaps, mine: set<string>)

  function Reify(h: Held, heaps: Heaps): Value {
    match h
    case Plain(v) => v
    case Buffer(x) => if x in heaps then heaps[x] else Seq([])
    case Record(name, fs) => Con(name, ReifyAll(fs, heaps))
  }

  function ReifyAll(hs: seq<Held>, heaps: Heaps): (vs: seq<Value>)
    ensures |vs| == |hs|
  {
    if hs == [] then [] else [Reify(hs[0], heaps)] + ReifyAll(hs[1..], heaps)
  }

  /** No buffer of these formals is part of the value. */
  predicate Avoids(h: Held, xs: set<string>) {
    match h
    case Plain(_) => true
    case Buffer(x) => x !in xs
    case Record(_, fs) => forall f :: f in fs ==> Avoids(f, xs)
  }

  predicate AvoidsAll(hs: seq<Held>, xs: set<string>) {
    forall h :: h in hs ==> Avoids(h, xs)
  }

  /** Only the buffers of `xs` may differ. */
  ghost predicate SameBut(xs: set<string>, heaps: Heaps, heaps': Heaps) {
    heaps.Keys == heaps'.Keys && forall x :: x in heaps && x !in xs ==> heaps[x] == heaps'[x]
  }

  lemma {:induction false} AvoidsReify(h: Held, xs: set<string>, heaps: Heaps, heaps': Heaps)
    requires Avoids(h, xs) && SameBut(xs, heaps, heaps')
    ensures Reify(h, heaps) == Reify(h, heaps')
    decreases h
  {
    if h.Record? {
      AvoidsReifyAll(h.fields, xs, heaps, heaps');
    }
  }

  lemma {:induction false} AvoidsReifyAll(hs: seq<Held>, xs: set<string>, heaps: Heaps, heaps': Heaps)
    requires AvoidsAll(hs, xs) && SameBut(xs, heaps, heaps')
    ensures ReifyAll(hs, heaps) == ReifyAll(hs, heaps')
    decreases hs
  {
    if hs != [] {
      AvoidsReify(hs[0], xs, heaps, heaps');
      AvoidsReifyAll(hs[1..], xs, heaps, heaps');
    }
  }

  lemma {:induction false} AvoidsFewer(h: Held, xs: set<string>, ys: set<string>)
    requires Avoids(h, xs) && ys <= xs
    ensures Avoids(h, ys)
  {
    if h.Record? {
      forall f | f in h.fields
        ensures Avoids(f, ys)
      {
        AvoidsFewer(f, xs, ys);
      }
    }
  }

  // ---- destructive evaluation ----

  datatype Got = Has(held: Held) | Stops(outcome: Outcome) | UseAfterMove

  datatype GotAll = HasAll(helds: seq<Held>) | StopsAll(got: Got)

  /** The environment of an arm, or why it was not reached. */
  datatype Entered = Into(env: HeldEnv) | Out(got: Got)

  /** Constructors whose result is not a record of their arguments. */
  predicate Special(name: string, arity: nat) {
    || (name in {"Bool.true", "Bool.false", "List.nil"} && arity == 0)
    || (name == "List.cons" && arity == 2)
  }

  /** The operand whose buffer the operator may extend. */
  function Grown(op: Op, hs: seq<Held>, st: Store): Option<string> {
    if op.Append? && |hs| == 2 && hs[0].Buffer? && hs[0].owner in st.heaps then Some(hs[0].owner)
    else if op == Ctor("List.cons") && |hs| == 2 && hs[1].Buffer? && hs[1].owner in st.heaps then Some(hs[1].owner)
    else None
  }

  /** `append` and `List.cons` grow the buffer when they are given it; any other operator
      reads its operands. */
  function ApplyHeld(m: Machine, op: Op, hs: seq<Held>, st: Store): (Got, Store) {
    var x := Grown(op, hs, st);
    var o := Apply(op, ReifyAll(hs, st.heaps), m.bounded);
    if x.Some? && o.Ok? then (Has(Buffer(x.value)), st.(heaps := st.heaps[x.value := o.value]))
    else if x.None? && op.Ctor? && !Special(op.name, |hs|) then (Has(Record(op.name, hs)), st)
    else (if o.Ok? then Has(Plain(o.value)) else Stops(o), st)
  }

  type HeldEnv = map<string, Held>

  /** Evaluation where the names in the store are buffers.  Reading any other local copies
      it.  An arm that repeats its scrutinee evaluates it a second time. */
  function Take(m: Machine, calls: nat, e: Expr, env: HeldEnv, st: Store): (Got, Store)
    decreases e, 0
  {
    match e
    case Lit(l) => (Has(Plain(LitValue(l))), st)
    case Var(y) =>
      if y in st.heaps then
        (if y in st.mine then (Has(Buffer(y)), st.(mine := st.mine - {y})) else (UseAfterMove, st))
      else (if y in env then Has(Plain(Reify(env[y], st.heaps))) else Stops(Stuck), st)
    case Prim(op, es) =>
      var (gs, st') := TakeAll(m, calls, es, env, st);
      if gs.StopsAll? then (gs.got, st') else ApplyHeld(m, op, gs.helds, st')
    case If(c, t, f) =>
      var (g, st') := Take(m, calls, c, env, st);
      if !g.Has? then (g, st')
      else
        var v := Reify(g.held, st'.heaps);
        if !v.Bool? then (Stops(Stuck), st') else Take(m, calls, if v.b then t else f, env, st')
    case Let(y, v, b) =>
      var (g, st') := Take(m, calls, v, env, st);
      if !g.Has? then (g, st') else Take(m, calls, b, env[y := g.held], st')
    case Match(s, alts) =>
      var (g, st') := Take(m, calls, s, env, st);
      if !g.Has? then (g, st') else
      var a := Select(alts, Reify(g.held, st'.heaps));
      if a.None? then (Stops(Stuck), st') else
      var (n, st'') := EnterArm(m, calls, s, a.value, env, st');
      if n.Out? then (n.got, st'') else Take(m, calls, a.value.body, n.env, st'')
    case Call(f, es) =>
      var (gs, st') := TakeAll(m, calls, es, env, st);
      if gs.StopsAll? then (gs.got, st')
      else if calls == 0 then (Stops(OutOfFuel), st')
      else
        var o := Run(m, calls - 1, f, ReifyAll(gs.helds, st'.heaps));
        (if o.Ok? then Has(Plain(o.value)) else Stops(o), st')
    case Unreachable => (Stops(Panic), st)
    case _ => (Stops(Stuck), st)
  }

  function TakeAll(m: Machine, calls: nat, es: Exprs, env: HeldEnv, st: Store): (r: (GotAll, Store))
    ensures r.0.StopsAll? ==> !r.0.got.Has?
    ensures r.0.HasAll? ==> |r.0.helds| == Len(es)
    decreases es, 0
  {
    match es
    case Nil => (HasAll([]), st)
    case Cons(e, tail) =>
      var (g, st') := Take(m, calls, e, env, st);
      if !g.Has? then (StopsAll(g), st')
      else
        var (gs, st'') := TakeAll(m, calls, tail, env, st');
        (if gs.StopsAll? then gs else HasAll([g.held] + gs.helds), st'')
  }

  /** The fields of an arm: those of the value matched, or of the scrutinee evaluated again. */
  function EnterArm(m: Machine, calls: nat, s: Expr, a: Arm, env: HeldEnv, st: Store): (r: (Entered, Store))
    requires |a.fields| == |a.binders|
    ensures r.0.Out? ==> !r.0.got.Has?
    decreases s, 1
  {
    if !a.again then (Into(Bind(a.binders, Plains(a.fields), env)), st)
    else
      var (g, st') := Take(m, calls, s, env, st);
      if !g.Has? then (Out(g), st')
      else
        var fs := Fields("Nat.succ", |a.binders|, Reify(g.held, st'.heaps));
        if fs == [] then (Out(Stops(Stuck)), st') else (Into(Bind(a.binders, Plains(fs[0]), env)), st')
  }

  function Plains(vs: seq<Value>): (hs: seq<Held>)
    ensures |hs| == |vs| && forall i :: 0 <= i < |vs| ==> hs[i] == Plain(vs[i])
  {
    seq(|vs|, i requires 0 <= i < |vs| => Plain(vs[i]))
  }

  // ---- accepted terms ----

  /** Owned formals and their positions. */
  type Owners = map<string, nat>

  lemma {:induction false} OwnedMore(e: Expr, x: string, index: nat, self: string, owned: bool)
    requires OwnedUses(e, x, index, self, owned)
    ensures OwnedUses(e, x, index, self, true)
  {
    match e
    case If(_, t, f) =>
      OwnedMore(t, x, index, self, owned);
      OwnedMore(f, x, index, self, owned);
    case Let(_, _, b) => OwnedMore(b, x, index, self, owned);
    case Match(_, alts) => OwnedMoreAlts(alts, x, index, self, owned);
    case _ =>
  }

  lemma {:induction false} OwnedMoreAll(es: Exprs, x: string, index: nat, self: string, owned: bool)
    requires OwnedUsesAll(es, x, index, self, owned)
    ensures OwnedUsesAll(es, x, index, self, true)
  {
    match es
    case Nil =>
    case Cons(e, tail) =>
      OwnedMore(e, x, index, self, owned);
      OwnedMoreAll(tail, x, index, self, owned);
  }

  lemma {:induction false} OwnedMoreAlts(alts: Alts, x: string, index: nat, self: string, owned: bool)
    requires OwnedUsesAlts(alts, x, index, self, owned)
    ensures OwnedUsesAlts(alts, x, index, self, true)
  {
    match alts
    case NoMore =>
    case Default(b) => OwnedMore(b, x, index, self, owned);
    case Alt(_, _, b, rest) =>
      OwnedMore(b, x, index, self, owned);
      OwnedMoreAlts(rest, x, index, self, owned);
  }

  lemma {:induction false} OwnedMoreArgs(es: Exprs, position: nat, x: string, index: nat, self: string, callee: string)
    requires OwnedArgs(es, position, x, index, self, callee)
    ensures OwnedUsesAll(es, x, index, self, true)
  {
    match es
    case Nil =>
    case Cons(e, tail) =>
      OwnedMore(e, x, index, self, callee == self && position == index);
      OwnedMoreArgs(tail, position + 1, x, index, self, callee);
  }

  /** The operands of an accepted node are accepted in an owning context. */
  lemma OperandsOwned(e: Expr, x: string, index: nat, self: string, owned: bool)
    requires e.Prim? || e.Call?
    requires OwnedUses(e, x, index, self, owned)
    ensures OwnedUsesAll(e.args, x, index, self, true)
    ensures !SelfAppend(e, x) && !ScalarRead(e, x)
  {
    assert !OwnedUsesAll(Cons(Var(x), Nil), x, index, self, false);
    if e.Call? {
      OwnedMoreArgs(e.args, 0, x, index, self, e.callee);
    } else if e.op.Ctor? {
    } else if e.op.Append? {
      assert !OwnedUses(Var(x), x, index, self, false);
      if e.args.Cons? {
        OwnedMoreAll(e.args.tail, x, index, self, false);
      }
    } else {
      OwnedMoreAll(e.args, x, index, self, false);
    }
  }

  /** Skipping leading lets and taking the larger branch is what the sequential count does
      too, once length reads are refused. */
  lemma {:induction false} PathIsSequential(e: Expr, x: string, index: nat, self: string, owned: bool)
    requires OwnedUses(e, x, index, self, owned)
    ensures PathUses.PathUses(e, x) == SequentialUses(e, x)
  {
    if Leading(e, x) {
      assert !OwnedUsesAll(Cons(Var(x), Nil), x, index, self, false);
      SequentialZero(e.value, x);
      PathIsSequential(e.body, x, index, self, owned);
    } else if e.If? && VarUses(e.cond, x) == 0 {
      SequentialZero(e.cond, x);
      PathIsSequential(e.yes, x, index, self, owned);
      PathIsSequential(e.no, x, index, self, owned);
    } else if e.Match? && VarUses(e.scrut, x) == 0 {
      SequentialZero(e.scrut, x);
      PathIsSequentialAlts(e.alts, x, index, self, owned);
    }
  }

  lemma {:induction false} PathIsSequentialAlts(alts: Alts, x: string, index: nat, self: string, owned: bool)
    requires OwnedUsesAlts(alts, x, index, self, owned)
    ensures PathUsesAlts(alts, x) == SequentialUsesAlts(alts, x)
  {
    match alts
    case NoMore =>
    case Default(b) => PathIsSequential(b, x, index, self, owned);
    case Alt(_, _, b, rest) =>
      PathIsSequential(b, x, index, self, owned);
      PathIsSequentialAlts(rest, x, index, self, owned);
  }

  /** Every owned formal is used at most once on a path, only in owning positions, and moved
      by no scrutinee that its arm repeats. */
  ghost predicate Linear(e: Expr, owners: Owners, self: string) {
    forall x :: x in owners ==>
      OwnedUses(e, x, owners[x], self, true) && SequentialUses(e, x) <= 1 && !Rereads(e, x)
  }

  ghost predicate LinearAll(es: Exprs, owners: Owners, self: string) {
    forall x :: x in owners ==>
      OwnedUsesAll(es, x, owners[x], self, true) && SequentialUsesAll(es, x) <= 1 && !RereadsAll(es, x)
  }

  ghost function Uses(e: Expr, owners: Owners): set<string> {
    set x | x in owners && VarUses(e, x) > 0
  }

  ghost function UsesAll(es: Exprs, owners: Owners): set<string> {
    set x | x in owners && VarUsesAll(es, x) > 0
  }

  ghost function UsesAlts(alts: Alts, owners: Owners): set<string> {
    set x | x in owners && VarUsesAlts(alts, x) > 0
  }

  /** The branches are accepted if the condition can end at all. */
  lemma LinearIf(e: Expr, owners: Owners, self: string)
    requires e.If? && Linear(e, owners, self)
    ensures Linear(e.cond, owners, self)
    ensures Ends(e.cond) ==> Linear(e.yes, owners, self) && Linear(e.no, owners, self)
    ensures Uses(e.cond, owners) !! Uses(e.yes, owners) && Uses(e.cond, owners) !! Uses(e.no, owners)
    ensures Uses(e, owners) == Uses(e.cond, owners) + Uses(e.yes, owners) + Uses(e.no, owners)
  {
    forall x | x in owners
      ensures OwnedUses(e.cond, x, owners[x], self, true)
      ensures VarUses(e.cond, x) == 0 || (VarUses(e.yes, x) == 0 && VarUses(e.no, x) == 0)
    {
      OwnedMore(e.cond, x, owners[x], self, false);
      SequentialZero(e.cond, x);
      SequentialZero(e.yes, x);
      SequentialZero(e.no, x);
    }
  }

  lemma LinearLet(e: Expr, owners: Owners, self: string)
    requires e.Let? && Linear(e, owners, self)
    ensures Linear(e.value, owners, self) && (owners != map[] ==> e.name !in owners)
    ensures Ends(e.value) ==> Linear(e.body, owners, self)
    ensures Uses(e.value, owners) !! Uses(e.body, owners)
    ensures Uses(e, owners) == Uses(e.value, owners) + Uses(e.body, owners)
  {
    forall x | x in owners
      ensures OwnedUses(e.value, x, owners[x], self, true)
      ensures VarUses(e.value, x) == 0 || VarUses(e.body, x) == 0
    {
      OwnedMore(e.value, x, owners[x], self, false);
      SequentialZero(e.value, x);
      SequentialZero(e.body, x);
    }
  }

  lemma LinearMatch(e: Expr, owners: Owners, self: string)
    requires e.Match? && Linear(e, owners, self)
    ensures Linear(e.scrut, owners, self)
    ensures Uses(e.scrut, owners) !! UsesAlts(e.alts, owners)
    ensures Uses(e, owners) == Uses(e.scrut, owners) + UsesAlts(e.alts, owners)
  {
    forall x | x in owners
      ensures OwnedUses(e.scrut, x, owners[x], self, true)
      ensures VarUses(e.scrut, x) == 0 || VarUsesAlts(e.alts, x) == 0
    {
      OwnedMore(e.scrut, x, owners[x], self, false);
      SequentialZero(e.scrut, x);
      SequentialZeroAlts(e.alts, x);
    }
  }

  /** A reachable arm is accepted, and if it repeats the scrutinee, that moves no owner. */
  lemma LinearArm(e: Expr, v: Value, owners: Owners, self: string)
    requires e.Match? && Linear(e, owners, self) && Ends(e.scrut) && Select(e.alts, v).Some?
    ensures var a := Select(e.alts, v).value;
      && Linear(a.body, owners, self) && Uses(a.body, owners) <= UsesAlts(e.alts, owners)
      && (forall x :: x in a.binders ==> x !in owners)
      && (a.again ==> forall x :: x in owners ==> !Moves(e.scrut, x))
  {
    forall x | x in owners
      ensures var a := Select(e.alts, v).value;
        && OwnedUses(a.body, x, owners[x], self, true) && x !in a.binders
        && SequentialUses(a.body, x) <= 1 && !Rereads(a.body, x) && VarUses(a.body, x) <= VarUsesAlts(e.alts, x)
        && (a.again ==> !Moves(e.scrut, x))
    {
      ArmOwned(e.alts, v, x, owners[x], self, true);
      ArmUses(e.alts, v, x);
      ArmRereads(e.alts, v, x, Moves(e.scrut, x));
    }
  }

  lemma {:induction false} ArmOwned(alts: Alts, v: Value, x: string, index: nat, self: string, owned: bool)
    requires OwnedUsesAlts(alts, x, index, self, owned) && Select(alts, v).Some?
    ensures var a := Select(alts, v).value; OwnedUses(a.body, x, index, self, owned) && x !in a.binders
  {
    if alts.Alt? && Fields(alts.ctor, |alts.binders|, v) == [] {
      ArmOwned(alts.rest, v, x, index, self, owned);
    }
  }

  lemma LinearOperands(e: Expr, owners: Owners, self: string)
    requires (e.Prim? || e.Call?) && Linear(e, owners, self)
    ensures LinearAll(e.args, owners, self) && Uses(e, owners) == UsesAll(e.args, owners)
  {
    forall x | x in owners
      ensures OwnedUsesAll(e.args, x, owners[x], self, true) && SequentialUsesAll(e.args, x) <= 1
    {
      OperandsOwned(e, x, owners[x], self, true);
    }
  }

  lemma LinearCons(es: Exprs, owners: Owners, self: string)
    requires es.Cons? && LinearAll(es, owners, self)
    ensures Linear(es.head, owners, self) && (Ends(es.head) ==> LinearAll(es.tail, owners, self))
    ensures Uses(es.head, owners) !! UsesAll(es.tail, owners)
    ensures UsesAll(es, owners) == Uses(es.head, owners) + UsesAll(es.tail, owners)
  {
    forall x | x in owners
      ensures VarUses(es.head, x) == 0 || VarUsesAll(es.tail, x) == 0
    {
      SequentialZero(es.head, x);
      SequentialZeroAll(es.tail, x);
    }
  }

  // ---- looking at a scrutinee twice ----

  /** Evaluation that yields a value has taken a path that ends. */
  lemma {:induction false} TakeEnds(m: Machine, calls: nat, e: Expr, env: HeldEnv, st: Store)
    requires Take(m, calls, e, env, st).0.Has?
    ensures Ends(e)
    decreases e
  {
    match e
    case Lit(_) =>
    case Var(_) =>
    case Prim(_, es) => TakeEndsAll(m, calls, es, env, st);
    case Call(_, es) => TakeEndsAll(m, calls, es, env, st);
    case If(c, t, f) =>
      var (g, st') := Take(m, calls, c, env, st);
      TakeEnds(m, calls, c, env, st);
      TakeEnds(m, calls, if Reify(g.held, st'.heaps).b then t else f, env, st');
    case Let(y, v, b) =>
      var (g, st') := Take(m, calls, v, env, st);
      TakeEnds(m, calls, v, env, st);
      TakeEnds(m, calls, b, env[y := g.held], st');
    case Match(s, alts) =>
      var (g, st') := Take(m, calls, s, env, st);
      TakeEnds(m, calls, s, env, st);
      var v := Reify(g.held, st'.heaps);
      var a := Select(alts, v).value;
      var (n, st'') := EnterArm(m, calls, s, a, env, st');
      TakeEnds(m, calls, a.body, n.env, st'');
      ArmEnds(alts, v, "");
  }

  lemma {:induction false} TakeEndsAll(m: Machine, calls: nat, es: Exprs, env: HeldEnv, st: Store)
    requires TakeAll(m, calls, es, env, st).0.HasAll?
    ensures EndsAll(es)
    decreases es
  {
    match es
    case Nil =>
    case Cons(e, tail) =>
      TakeEnds(m, calls, e, env, st);
      TakeEndsAll(m, calls, tail, env, Take(m, calls, e, env, st).1);
  }

  /** No path to the end of the term moves an owner. */
  ghost predicate Still(e: Expr, owners: Owners) {
    forall x :: x in owners ==> !Moves(e, x)
  }

  ghost predicate StillAll(es: Exprs, owners: Owners) {
    forall x :: x in owners ==> !MovesAll(es, x)
  }

  /** A term that moves no owner leaves every buffer alone and yields none. */
  lemma {:induction false} TakeKeeps(m: Machine, calls: nat, e: Expr, env: HeldEnv, owners: Owners, self: string,
                                     st: Store)
    requires Linear(e, owners, self) && Still(e, owners) && st.heaps.Keys == owners.Keys && owners != map[]
    requires Take(m, calls, e, env, st).0.Has?
    ensures var r := Take(m, calls, e, env, st); r.1 == st && Avoids(r.0.held, owners.Keys)
    decreases e, 1
  {
    match e
    case Lit(_) =>
    case Var(y) => assert y in owners ==> Moves(e, y);
    case Prim(_, _) => TakeKeepsPrim(m, calls, e, env, owners, self, st);
    case Call(_, es) =>
      LinearOperands(e, owners, self);
      assert StillAll(es, owners);
      TakeKeepsAll(m, calls, es, env, owners, self, st);
    case If(_, _, _) => TakeKeepsIf(m, calls, e, env, owners, self, st);
    case Let(_, _, _) => TakeKeepsLet(m, calls, e, env, owners, self, st);
    case Match(_, _) => TakeKeepsMatch(m, calls, e, env, owners, self, st);
  }

  lemma {:induction false} TakeKeepsPrim(m: Machine, calls: nat, e: Expr, env: HeldEnv, owners: Owners, self: string,
                                         st: Store)
    requires e.Prim? && Linear(e, owners, self) && Still(e, owners) && st.heaps.Keys == owners.Keys && owners != map[]
    requires Take(m, calls, e, env, st).0.Has?
    ensures var r := Take(m, calls, e, env, st); r.1 == st && Avoids(r.0.held, owners.Keys)
    decreases e, 0
  {
    LinearOperands(e, owners, self);
    forall x | x in owners
      ensures !MovesAll(e.args, x)
    {
      OperandsOwned(e, x, owners[x], self, true);
    }
    TakeKeepsAll(m, calls, e.args, env, owners, self, st);
    ApplyKeeps(m, e.op, TakeAll(m, calls, e.args, env, st).0.helds, st);
  }

  lemma ApplyKeeps(m: Machine, op: Op, hs: seq<Held>, st: Store)
    requires AvoidsAll(hs, st.heaps.Keys)
    ensures var r := ApplyHeld(m, op, hs, st); r.1 == st && (r.0.Has? ==> Avoids(r.0.held, st.heaps.Keys))
  {
    assert |hs| == 2 ==> hs[0] in hs && hs[1] in hs;
  }

  lemma {:induction false} TakeKeepsIf(m: Machine, calls: nat, e: Expr, env: HeldEnv, owners: Owners, self: string,
                                       st: Store)
    requires e.If? && Linear(e, owners, self) && Still(e, owners) && st.heaps.Keys == owners.Keys && owners != map[]
    requires Take(m, calls, e, env, st).0.Has?
    ensures var r := Take(m, calls, e, env, st); r.1 == st && Avoids(r.0.held, owners.Keys)
    decreases e, 0
  {
    LinearIf(e, owners, self);
    var (g, st') := Take(m, calls, e.cond, env, st);
    var branch := if Reify(g.held, st'.heaps).b then e.yes else e.no;
    TakeEnds(m, calls, e.cond, env, st);
    TakeEnds(m, calls, branch, env, st');
    TakeKeeps(m, calls, e.cond, env, owners, self, st);
    TakeKeeps(m, calls, branch, env, owners, self, st);
  }

  lemma {:induction false} TakeKeepsLet(m: Machine, calls: nat, e: Expr, env: HeldEnv, owners: Owners, self: string,
                                        st: Store)
    requires e.Let? && Linear(e, owners, self) && Still(e, owners) && st.heaps.Keys == owners.Keys && owners != map[]
    requires Take(m, calls, e, env, st).0.Has?
    ensures var r := Take(m, calls, e, env, st); r.1 == st && Avoids(r.0.held, owners.Keys)
    decreases e, 0
  {
    LinearLet(e, owners, self);
    NoJoinOwned(e, owners, self);
    var (g, st') := Take(m, calls, e.value, env, st);
    TakeEnds(m, calls, e.value, env, st);
    TakeEnds(m, calls, e.body, env[e.name := g.held], st');
    TakeKeeps(m, calls, e.value, env, owners, self, st);
    TakeKeeps(m, calls, e.body, env[e.name := g.held], owners, self, st);
  }

  lemma NoJoinOwned(e: Expr, owners: Owners, self: string)
    requires e.Let? && Linear(e, owners, self) && owners != map[]
    ensures !e.value.Jp?
  {
    var x :| x in owners;
    assert OwnedUses(e.value, x, owners[x], self, false);
  }

  lemma {:induction false} TakeKeepsMatch(m: Machine, calls: nat, e: Expr, env: HeldEnv, owners: Owners, self: string,
                                          st: Store)
    requires e.Match? && Linear(e, owners, self) && Still(e, owners) && st.heaps.Keys == owners.Keys && owners != map[]
    requires Take(m, calls, e, env, st).0.Has?
    ensures var r := Take(m, calls, e, env, st); r.1 == st && Avoids(r.0.held, owners.Keys)
    decreases e, 0
  {
    LinearMatch(e, owners, self);
    var Match(s, alts) := e;
    var (g, st') := Take(m, calls, s, env, st);
    var v := Reify(g.held, st'.heaps);
    var a := Select(alts, v).value;
    var (n, st'') := EnterArm(m, calls, s, a, env, st');
    TakeEnds(m, calls, s, env, st);
    TakeEnds(m, calls, a.body, n.env, st'');
    LinearArm(e, v, owners, self);
    StillParts(e, v, owners);
    TakeKeeps(m, calls, s, env, owners, self, st);
    TakeKeeps(m, calls, a.body, n.env, owners, self, st);
  }

  lemma StillParts(e: Expr, v: Value, owners: Owners)
    requires e.Match? && Still(e, owners) && Select(e.alts, v).Some?
    requires Ends(e.scrut) && Ends(Select(e.alts, v).value.body)
    ensures Still(e.scrut, owners) && Still(Select(e.alts, v).value.body, owners)
  {
    forall x | x in owners
      ensures !Moves(e.scrut, x) && !Moves(Select(e.alts, v).value.body, x)
    {
      ArmEnds(e.alts, v, x);
    }
  }

  lemma {:induction false} TakeKeepsAll(m: Machine, calls: nat, es: Exprs, env: HeldEnv, owners: Owners, self: string,
                                        st: Store)
    requires LinearAll(es, owners, self) && StillAll(es, owners) && st.heaps.Keys == owners.Keys && owners != map[]
    requires TakeAll(m, calls, es, env, st).0.HasAll?
    ensures var r := TakeAll(m, calls, es, env, st); r.1 == st && AvoidsAll(r.0.helds, owners.Keys)
    decreases es
  {
    match es
    case Nil =>
    case Cons(e, tail) =>
      LinearCons(es, owners, self);
      TakeEnds(m, calls, e, env, st);
      TakeEndsAll(m, calls, tail, env, Take(m, calls, e, env, st).1);
      TakeKeeps(m, calls, e, env, owners, self, st);
      TakeKeepsAll(m, calls, tail, env, owners, self, st);
  }

  /** An accepted arm is entered with the fields of the value matched: a second look at the
      scrutinee finds every buffer where the first one found it. */
  lemma EnterAccepted(m: Machine, calls: nat, e: Expr, env: HeldEnv, owners: Owners, self: string, st: Store)
    requires e.Match? && Linear(e, owners, self) && st.heaps.Keys == owners.Keys && owners != map[]
    requires Take(m, calls, e.scrut, env, st).0.Has?
    requires var (g, st') := Take(m, calls, e.scrut, env, st); Select(e.alts, Reify(g.held, st'.heaps)).Some?
    ensures var (g, st') := Take(m, calls, e.scrut, env, st);
      var a := Select(e.alts, Reify(g.held, st'.heaps)).value;
      EnterArm(m, calls, e.scrut, a, env, st') == (Into(Bind(a.binders, Plains(a.fields), env)), st')
  {
    var (g, st') := Take(m, calls, e.scrut, env, st);
    var v := Reify(g.held, st'.heaps);
    TakeEnds(m, calls, e.scrut, env, st);
    LinearArm(e, v, owners, self);
    LinearMatch(e, owners, self);
    SelectAgain(e.alts, v);
    if Select(e.alts, v).value.again {
      TakeKeeps(m, calls, e.scrut, env, owners, self, st);
    }
  }

  // ---- the state between two steps ----

  /** The formals in `uses` still own their buffers, which hold their values and which no
      local shares; every other local stands for its pure value. */
  ghost predicate Owns(uses: set<string>, env': HeldEnv, env: Env, st: Store) {
    && uses <= st.mine && st.mine <= st.heaps.Keys
    && (forall x :: x in uses ==> x in env && env[x] == st.heaps[x])
    && (forall y :: y !in st.heaps ==> (y in env' <==> y in env))
    && (forall y :: y !in st.heaps && y in env' ==> Reify(env'[y], st.heaps) == env[y] && Avoids(env'[y], uses))
  }

  /** The invariant of evaluation: ready for the uses of the term, with buffers for exactly
      the owned formals. */
  ghost predicate Ready(uses: set<string>, owners: Owners, env': HeldEnv, env: Env, st: Store) {
    st.heaps.Keys == owners.Keys && Owns(uses, env', env, st)
  }

  /** A step touches only the buffers in `uses`. */
  ghost predicate Touched(uses: set<string>, st: Store, st': Store) {
    && SameBut(uses, st.heaps, st'.heaps) && st'.mine <= st.mine
    && (forall x :: x in st.mine && x !in uses ==> x in st'.mine)
  }

  predicate Agrees(g: Got, heaps: Heaps, o: Outcome) {
    match g
    case Has(h) => o.Ok? && Reify(h, heaps) == o.value
    case Stops(o') => o' == o && !o.Ok?
    case UseAfterMove => false
  }

  predicate AgreesAll(gs: GotAll, heaps: Heaps, os: Outcomes) {
    match gs
    case HasAll(hs) => os.Oks? && ReifyAll(hs, heaps) == os.values
    case StopsAll(g) => os.Fails? && Agrees(g, heaps, os.outcome)
  }

  /** What a term with these uses leaves behind. */
  ghost predicate Refines(uses: set<string>, st: Store, r: (Got, Store), o: Outcome) {
    && Touched(uses, st, r.1) && Agrees(r.0, r.1.heaps, o)
    && (r.0.Has? ==> Avoids(r.0.held, st.heaps.Keys - uses))
  }

  ghost predicate RefinesAll(uses: set<string>, st: Store, r: (GotAll, Store), os: Outcomes) {
    && Touched(uses, st, r.1) && AgreesAll(r.0, r.1.heaps, os)
    && (r.0.HasAll? ==> AvoidsAll(r.0.helds, st.heaps.Keys - uses))
  }

  /** After one step the state is ready for a step with other uses. */
  lemma Handover(first: set<string>, second: set<string>, env': HeldEnv, env: Env, st: Store, st': Store)
    requires Owns(first + second, env', env, st) && Touched(first, st, st') && first !! second
    ensures Owns(second, env', env, st')
  {
    forall y | y !in st'.heaps && y in env'
      ensures Reify(env'[y], st'.heaps) == env[y] && Avoids(env'[y], second)
    {
      AvoidsFewer(env'[y], first + second, first);
      AvoidsFewer(env'[y], first + second, second);
      AvoidsReify(env'[y], first, st.heaps, st'.heaps);
    }
  }

  lemma OwnsFewer(uses: set<string>, fewer: set<string>, env': HeldEnv, env: Env, st: Store)
    requires Owns(uses, env', env, st) && fewer <= uses
    ensures Owns(fewer, env', env, st)
  {
    forall y | y !in st.heaps && y in env'
      ensures Avoids(env'[y], fewer)
    {
      AvoidsFewer(env'[y], uses, fewer);
    }
  }

  /** A step with fewer uses is a step with more. */
  lemma RefinesMore(uses: set<string>, more: set<string>, st: Store, r: (Got, Store), o: Outcome)
    requires Refines(uses, st, r, o) && uses <= more
    ensures Refines(more, st, r, o)
  {
    if r.0.Has? {
      AvoidsFewer(r.0.held, st.heaps.Keys - uses, st.heaps.Keys - more);
    }
  }

  /** A second step after a first one, seen as one step. */
  lemma Sequence(first: set<string>, second: set<string>, st: Store, st': Store, r: (Got, Store), o: Outcome)
    requires Touched(first, st, st') && Refines(second, st', r, o)
    ensures Refines(first + second, st, r, o)
  {
    if r.0.Has? {
      AvoidsFewer(r.0.held, st'.heaps.Keys - second, st.heaps.Keys - (first + second));
    }
  }

  /** Binding the result of the first step for the second. */
  lemma BindHeld(first: set<string>, second: set<string>, y: string, g: Got, env': HeldEnv, env: Env, st: Store)
    requires Owns(second, env', env, st) && first !! second && second <= st.heaps.Keys && y !in st.heaps
    requires g.Has? && Avoids(g.held, st.heaps.Keys - first)
    ensures Owns(second, env'[y := g.held], env[y := Reify(g.held, st.heaps)], st)
  {
    AvoidsFewer(g.held, st.heaps.Keys - first, second);
  }

  lemma LetReady(first: set<string>, second: set<string>, y: string, g: Got, env': HeldEnv, env: Env,
                 owners: Owners, st: Store, st': Store)
    requires Ready(first + second, owners, env', env, st) && Touched(first, st, st') && first !! second
    requires second <= owners.Keys && y !in owners && g.Has? && Avoids(g.held, st.heaps.Keys - first)
    ensures Ready(second, owners, env'[y := g.held], env[y := Reify(g.held, st'.heaps)], st')
  {
    Handover(first, second, env', env, st, st');
    BindHeld(first, second, y, g, env', env, st');
  }

  lemma {:induction false} BindOwns(bs: seq<string>, fs: seq<Value>, uses: set<string>, env': HeldEnv, env: Env,
                                    st: Store)
    requires |bs| == |fs| && Owns(uses, env', env, st) && forall b :: b in bs ==> b !in st.heaps
    ensures Owns(uses, Bind(bs, Plains(fs), env'), Bind(bs, fs, env), st)
    decreases |bs|
  {
    if bs != [] {
      assert bs[0] in bs && bs[0] !in st.heaps;
      assert Plains(fs)[1..] == Plains(fs[1..]);
      BindOwns(bs[1..], fs[1..], uses, env'[bs[0] := Plain(fs[0])], env[bs[0] := fs[0]], st);
    }
  }

  // ---- destructive evaluation refines the pure one ----

  lemma ReifyPair(hs: seq<Held>, heaps: Heaps)
    requires |hs| == 2
    ensures ReifyAll(hs, heaps) == [Reify(hs[0], heaps), Reify(hs[1], heaps)]
  {
    assert ReifyAll(hs[1..], heaps) == [Reify(hs[1], heaps)] + ReifyAll(hs[1..][1..], heaps);
  }

  /** Operators agree, whether they grow a buffer or read it. */
  lemma ApplyRefines(m: Machine, op: Op, hs: seq<Held>, uses: set<string>, st: Store)
    requires AvoidsAll(hs, st.heaps.Keys - uses)
    ensures Refines(uses, st, ApplyHeld(m, op, hs, st), Apply(op, ReifyAll(hs, st.heaps), m.bounded))
  {
    var x := Grown(op, hs, st);
    if x.Some? {
      ReifyPair(hs, st.heaps);
      assert hs[0] in hs && hs[1] in hs;
      assert x.value in uses;
    }
  }

  /** With at most one use of each owned formal on a path, destructive evaluation computes
      the pure outcome, and no buffer is used after it was handed over. */
  lemma {:induction false} TakeOwned(m: Machine, calls: nat, jumps: nat, actuals: seq<Value>, e: Expr,
                                     env': HeldEnv, env: Env, owners: Owners, self: string, st: Store)
    requires Linear(e, owners, self) && Ready(Uses(e, owners), owners, env', env, st)
    requires owners != map[]
    ensures Refines(Uses(e, owners), st, Take(m, calls, e, env', st), Eval(m, calls, jumps, actuals, e, env, NoJoin))
    decreases e, 1
  {
    var x :| x in owners;
    assert OwnedUses(e, x, owners[x], self, true);
    match e
    case Lit(_) =>
    case Var(y) => assert y in owners ==> y in Uses(e, owners);
    case Unreachable =>
    case Prim(op, es) => TakeOwnedPrim(m, calls, jumps, actuals, e, env', env, owners, self, st);
    case Call(f, es) => TakeOwnedCall(m, calls, jumps, actuals, e, env', env, owners, self, st);
    case If(_, _, _) => TakeOwnedIf(m, calls, jumps, actuals, e, env', env, owners, self, st);
    case Let(_, _, _) => TakeOwnedLet(m, calls, jumps, actuals, e, env', env, owners, self, st);
    case Match(_, _) => TakeOwnedMatch(m, calls, jumps, actuals, e, env', env, owners, self, st);
  }

  lemma {:induction false} TakeOwnedPrim(
    m: Machine, calls: nat, jumps: nat, actuals: seq<Value>, e: Expr,
    env': HeldEnv, env: Env, owners: Owners, self: string, st: Store)
    requires e.Prim? && Linear(e, owners, self) && Ready(Uses(e, owners), owners, env', env, st) && owners != map[]
    ensures Refines(Uses(e, owners), st, Take(m, calls, e, env', st), Eval(m, calls, jumps, actuals, e, env, NoJoin))
    decreases e, 0
  {
    LinearOperands(e, owners, self);
    TakeOwnedAll(m, calls, jumps, actuals, e.args, env', env, owners, self, st);
    var (gs, st') := TakeAll(m, calls, e.args, env', st);
    if gs.HasAll? {
      ApplyRefines(m, e.op, gs.helds, Uses(e, owners), st');
      var o := Apply(e.op, ReifyAll(gs.helds, st'.heaps), m.bounded);
      RefinesTwice(Uses(e, owners), st, st', ApplyHeld(m, e.op, gs.helds, st'), o);
    }
  }

  /** Two steps with the same uses. */
  lemma RefinesTwice(uses: set<string>, st: Store, st': Store, r: (Got, Store), o: Outcome)
    requires Touched(uses, st, st') && Refines(uses, st', r, o)
    ensures Refines(uses, st, r, o)
  {}

  lemma {:induction false} TakeOwnedCall(
    m: Machine, calls: nat, jumps: nat, actuals: seq<Value>, e: Expr,
    env': HeldEnv, env: Env, owners: Owners, self: string, st: Store)
    requires e.Call? && Linear(e, owners, self) && Ready(Uses(e, owners), owners, env', env, st) && owners != map[]
    ensures Refines(Uses(e, owners), st, Take(m, calls, e, env', st), Eval(m, calls, jumps, actuals, e, env, NoJoin))
    decreases e, 0
  {
    LinearOperands(e, owners, self);
    TakeOwnedAll(m, calls, jumps, actuals, e.args, env', env, owners, self, st);
  }

  lemma {:induction false} TakeOwnedIf(
    m: Machine, calls: nat, jumps: nat, actuals: seq<Value>, e: Expr,
    env': HeldEnv, env: Env, owners: Owners, self: string, st: Store)
    requires e.If? && Linear(e, owners, self) && Ready(Uses(e, owners), owners, env', env, st) && owners != map[]
    ensures Refines(Uses(e, owners), st, Take(m, calls, e, env', st), Eval(m, calls, jumps, actuals, e, env, NoJoin))
    decreases e, 0
  {
    LinearIf(e, owners, self);
    var first := Uses(e.cond, owners);
    OwnsFewer(Uses(e, owners), first, env', env, st);
    TakeOwned(m, calls, jumps, actuals, e.cond, env', env, owners, self, st);
    var (g, st') := Take(m, calls, e.cond, env', st);
    if g.Has? && Reify(g.held, st'.heaps).Bool? {
      var branch := if Reify(g.held, st'.heaps).b then e.yes else e.no;
      var second := Uses(branch, owners);
      TakeEnds(m, calls, e.cond, env', st);
      OwnsFewer(Uses(e, owners), first + second, env', env, st);
      Handover(first, second, env', env, st, st');
      TakeOwned(m, calls, jumps, actuals, branch, env', env, owners, self, st');
      var r := Take(m, calls, branch, env', st');
      Sequence(first, second, st, st', r, Eval(m, calls, jumps, actuals, branch, env, NoJoin));
      RefinesMore(first + second, Uses(e, owners), st, r, Eval(m, calls, jumps, actuals, branch, env, NoJoin));
    } else if !g.Has? {
      RefinesMore(first, Uses(e, owners), st, (g, st'), Eval(m, calls, jumps, actuals, e.cond, env, NoJoin));
    }
  }

  lemma {:induction false} TakeOwnedLet(
    m: Machine, calls: nat, jumps: nat, actuals: seq<Value>, e: Expr,
    env': HeldEnv, env: Env, owners: Owners, self: string, st: Store)
    requires e.Let? && Linear(e, owners, self) && Ready(Uses(e, owners), owners, env', env, st) && owners != map[]
    ensures Refines(Uses(e, owners), st, Take(m, calls, e, env', st), Eval(m, calls, jumps, actuals, e, env, NoJoin))
    decreases e, 0
  {
    LinearLet(e, owners, self);
    var first, second := Uses(e.value, owners), Uses(e.body, owners);
    OwnsFewer(Uses(e, owners), first, env', env, st);
    TakeOwned(m, calls, jumps, actuals, e.value, env', env, owners, self, st);
    var (g, st') := Take(m, calls, e.value, env', st);
    if g.Has? {
      TakeEnds(m, calls, e.value, env', st);
      LetReady(first, second, e.name, g, env', env, owners, st, st');
      TakeOwned(m, calls, jumps, actuals, e.body, env'[e.name := g.held], env[e.name := Reify(g.held, st'.heaps)],
                owners, self, st');
    }
    LetRefines(m, calls, jumps, actuals, e, env', env, first, second, st);
  }

  lemma LetRefines(m: Machine, calls: nat, jumps: nat, actuals: seq<Value>, e: Expr, env': HeldEnv, env: Env,
                   first: set<string>, second: set<string>, st: Store)
    requires e.Let? && !e.value.Jp?
    requires Refines(first, st, Take(m, calls, e.value, env', st), Eval(m, calls, jumps, actuals, e.value, env, NoJoin))
    requires var (g, st') := Take(m, calls, e.value, env', st);
      g.Has? ==> var u := Reify(g.held, st'.heaps);
        Refines(second, st', Take(m, calls, e.body, env'[e.name := g.held], st'),
                Eval(m, calls, jumps, actuals, e.body, env[e.name := u], NoJoin))
    ensures Refines(first + second, st, Take(m, calls, e, env', st), Eval(m, calls, jumps, actuals, e, env, NoJoin))
  {
    var (g, st') := Take(m, calls, e.value, env', st);
    if g.Has? {
      var u := Reify(g.held, st'.heaps);
      Sequence(first, second, st, st', Take(m, calls, e.body, env'[e.name := g.held], st'),
               Eval(m, calls, jumps, actuals, e.body, env[e.name := u], NoJoin));
    } else {
      RefinesMore(first, first + second, st, (g, st'), Eval(m, calls, jumps, actuals, e.value, env, NoJoin));
    }
  }

  lemma {:induction false} TakeOwnedMatch(
    m: Machine, calls: nat, jumps: nat, actuals: seq<Value>, e: Expr,
    env': HeldEnv, env: Env, owners: Owners, self: string, st: Store)
    requires e.Match? && Linear(e, owners, self) && Ready(Uses(e, owners), owners, env', env, st) && owners != map[]
    ensures Refines(Uses(e, owners), st, Take(m, calls, e, env', st), Eval(m, calls, jumps, actuals, e, env, NoJoin))
    decreases e, 0
  {
    LinearMatch(e, owners, self);
    var Match(s, alts) := e;
    var first := Uses(s, owners);
    OwnsFewer(Uses(e, owners), first, env', env, st);
    TakeOwned(m, calls, jumps, actuals, s, env', env, owners, self, st);
    var (g, st') := Take(m, calls, s, env', st);
    if !g.Has? {
      RefinesMore(first, Uses(e, owners), st, (g, st'), Eval(m, calls, jumps, actuals, s, env, NoJoin));
    } else {
      SelectEval(m, calls, jumps, actuals, alts, Reify(g.held, st'.heaps), env, NoJoin);
      if Select(alts, Reify(g.held, st'.heaps)).None? {
        RefinesMore(first, Uses(e, owners), st, (Stops(Stuck), st'), Stuck);
      } else {
        var a := TakeOwnedArm(m, calls, jumps, actuals, e, env', env, owners, self, st);
      }
    }
  }

  /** The arm, after a scrutinee that yielded a value. */
  lemma {:induction false} TakeOwnedArm(
    m: Machine, calls: nat, jumps: nat, actuals: seq<Value>, e: Expr,
    env': HeldEnv, env: Env, owners: Owners, self: string, st: Store) returns (a: Arm)
    requires e.Match? && Linear(e, owners, self) && Ready(Uses(e, owners), owners, env', env, st) && owners != map[]
    requires Take(m, calls, e.scrut, env', st).0.Has?
    requires Touched(Uses(e.scrut, owners), st, Take(m, calls, e.scrut, env', st).1)
    requires var (g, st') := Take(m, calls, e.scrut, env', st); Select(e.alts, Reify(g.held, st'.heaps)).Some?
    ensures var (g, st') := Take(m, calls, e.scrut, env', st); a == Select(e.alts, Reify(g.held, st'.heaps)).value
    ensures Refines(Uses(e, owners), st, Take(m, calls, e, env', st),
                    Eval(m, calls, jumps, actuals, a.body, Bind(a.binders, a.fields, env), NoJoin))
    decreases e, 0, 0
  {
    var (g, st') := Take(m, calls, e.scrut, env', st);
    a := ArmAccepted(m, calls, e, env', env, owners, self, st);
    var inner', inner := Bind(a.binders, Plains(a.fields), env'), Bind(a.binders, a.fields, env);
    TakeOwned(m, calls, jumps, actuals, a.body, inner', inner, owners, self, st');
    var r, o := Take(m, calls, a.body, inner', st'), Eval(m, calls, jumps, actuals, a.body, inner, NoJoin);
    Sequence(Uses(e.scrut, owners), Uses(a.body, owners), st, st', r, o);
    RefinesMore(Uses(e.scrut, owners) + Uses(a.body, owners), Uses(e, owners), st, r, o);
  }

  /** After the scrutinee the state is ready for the arm. */
  lemma ArmReady(e: Expr, a: Arm, env': HeldEnv, env: Env, owners: Owners, st: Store, st': Store)
    requires e.Match? && |a.binders| == |a.fields|
    requires Ready(Uses(e, owners), owners, env', env, st) && Touched(Uses(e.scrut, owners), st, st')
    requires Uses(e.scrut, owners) !! UsesAlts(e.alts, owners) && Uses(a.body, owners) <= UsesAlts(e.alts, owners)
    requires Uses(e, owners) == Uses(e.scrut, owners) + UsesAlts(e.alts, owners)
    requires forall x :: x in a.binders ==> x !in owners
    ensures Ready(Uses(a.body, owners), owners, Bind(a.binders, Plains(a.fields), env'), Bind(a.binders, a.fields, env),
                  st')
  {
    Handover(Uses(e.scrut, owners), UsesAlts(e.alts, owners), env', env, st, st');
    OwnsFewer(UsesAlts(e.alts, owners), Uses(a.body, owners), env', env, st');
    BindOwns(a.binders, a.fields, Uses(a.body, owners), env', env, st');
  }

  /** Everything the arm needs, after a scrutinee that yielded a value. */
  lemma ArmAccepted(m: Machine, calls: nat, e: Expr, env': HeldEnv, env: Env, owners: Owners, self: string, st: Store)
    returns (a: Arm)
    requires e.Match? && Linear(e, owners, self) && Ready(Uses(e, owners), owners, env', env, st) && owners != map[]
    requires Take(m, calls, e.scrut, env', st).0.Has?
    requires Touched(Uses(e.scrut, owners), st, Take(m, calls, e.scrut, env', st).1)
    requires var (g, st') := Take(m, calls, e.scrut, env', st); Select(e.alts, Reify(g.held, st'.heaps)).Some?
    ensures var (g, st') := Take(m, calls, e.scrut, env', st);
      && a == Select(e.alts, Reify(g.held, st'.heaps)).value
      && EnterArm(m, calls, e.scrut, a, env', st') == (Into(Bind(a.binders, Plains(a.fields), env')), st')
      && Ready(Uses(a.body, owners), owners, Bind(a.binders, Plains(a.fields), env'), Bind(a.binders, a.fields, env),
               st')
    ensures Linear(a.body, owners, self) && Uses(e.scrut, owners) + Uses(a.body, owners) <= Uses(e, owners)
  {
    var (g, st') := Take(m, calls, e.scrut, env', st);
    var u := Reify(g.held, st'.heaps);
    a := Select(e.alts, u).value;
    TakeEnds(m, calls, e.scrut, env', st);
    LinearMatch(e, owners, self);
    LinearArm(e, u, owners, self);
    EnterAccepted(m, calls, e, env', owners, self, st);
    ArmReady(e, a, env', env, owners, st, st');
  }

  /** Operands evaluated earlier keep their value while later ones are evaluated. */
  lemma ConsHelds(first: set<string>, second: set<string>, st: Store, g: Got, st': Store, o: Outcome,
                  r: (GotAll, Store), os: Outcomes)
    requires Refines(first, st, (g, st'), o) && g.Has? && RefinesAll(second, st', r, os) && first !! second
    ensures Touched(first + second, st, r.1)
    ensures r.0.HasAll? ==>
      && ReifyAll([g.held] + r.0.helds, r.1.heaps) == [o.value] + os.values
      && AvoidsAll([g.held] + r.0.helds, st.heaps.Keys - (first + second))
  {
    if r.0.HasAll? {
      var hs := [g.held] + r.0.helds;
      assert hs[1..] == r.0.helds;
      forall h | h in hs
        ensures Avoids(h, st.heaps.Keys - (first + second))
      {
        if h == g.held {
          AvoidsFewer(h, st.heaps.Keys - first, st.heaps.Keys - (first + second));
        } else {
          AvoidsFewer(h, st.heaps.Keys - second, st.heaps.Keys - (first + second));
        }
      }
      HeldLasts(first, second, st, g, st', r.1);
    }
  }

  lemma HeldLasts(first: set<string>, second: set<string>, st: Store, g: Got, st': Store, st'': Store)
    requires g.Has? && Avoids(g.held, st.heaps.Keys - first) && first !! second
    requires st'.heaps.Keys == st.heaps.Keys && SameBut(second, st'.heaps, st''.heaps)
    ensures Reify(g.held, st''.heaps) == Reify(g.held, st'.heaps)
  {
    var touched := second * st.heaps.Keys;
    AvoidsFewer(g.held, st.heaps.Keys - first, touched);
    AvoidsReify(g.held, touched, st'.heaps, st''.heaps);
  }

  lemma {:induction false} TakeOwnedAll(
    m: Machine, calls: nat, jumps: nat, actuals: seq<Value>, es: Exprs,
    env': HeldEnv, env: Env, owners: Owners, self: string, st: Store)
    requires LinearAll(es, owners, self) && Ready(UsesAll(es, owners), owners, env', env, st) && owners != map[]
    ensures RefinesAll(UsesAll(es, owners), st, TakeAll(m, calls, es, env', st),
                       EvalAll(m, calls, jumps, actuals, es, env, NoJoin))
    decreases es
  {
    match es
    case Nil =>
    case Cons(e, tail) =>
      LinearCons(es, owners, self);
      var first, second := Uses(e, owners), UsesAll(tail, owners);
      OwnsFewer(UsesAll(es, owners), first, env', env, st);
      TakeOwned(m, calls, jumps, actuals, e, env', env, owners, self, st);
      var (g, st') := Take(m, calls, e, env', st);
      if g.Has? {
        TakeEnds(m, calls, e, env', st);
        Handover(first, second, env', env, st, st');
        TakeOwnedAll(m, calls, jumps, actuals, tail, env', env, owners, self, st');
        ConsHelds(first, second, st, g, st', Eval(m, calls, jumps, actuals, e, env, NoJoin),
                  TakeAll(m, calls, tail, env', st'), EvalAll(m, calls, jumps, actuals, tail, env, NoJoin));
      }
  }

  // ---- one turn of the owned worker ----

  datatype HeldTurn = Exit(got: Got) | Repeat(helds: seq<Held>)

  function TakeOperand(m: Machine, calls: nat, formals: seq<Value>, e: Expr, i: nat, env: HeldEnv,
                       st: Store, p: Plan): (Got, Store)
    requires p.Valid() && i < |p.params| == |formals|
  {
    if p.changed[i] then Take(m, calls, e, env, st) else (Has(Plain(formals[i])), st)
  }

  /** Operands of the parallel assignment; formals the plan leaves alone are not evaluated. */
  function TakeOperands(m: Machine, calls: nat, formals: seq<Value>, es: Exprs, i: nat, env: HeldEnv,
                        st: Store, p: Plan): (r: (GotAll, Store))
    requires p.Valid() && i + Len(es) == |p.params| == |formals|
    ensures r.0.HasAll? ==> |r.0.helds| == Len(es)
    ensures r.0.StopsAll? ==> !r.0.got.Has?
    decreases es
  {
    match es
    case Nil => (HasAll([]), st)
    case Cons(e, tail) =>
      var (g, st') := TakeOperand(m, calls, formals, e, i, env, st, p);
      if !g.Has? then (StopsAll(g), st')
      else
        var (gs, st'') := TakeOperands(m, calls, formals, tail, i + 1, env, st', p);
        (if gs.StopsAll? then gs else HasAll([g.held] + gs.helds), st'')
  }

  function TakeTurn(m: Machine, calls: nat, formals: seq<Value>, e: Expr, env: HeldEnv, st: Store,
                    p: Plan): (r: (HeldTurn, Store))
    requires p.Valid() && |formals| == |p.params|
    ensures r.0.Repeat? ==> |r.0.helds| == |p.params|
    decreases e
  {
    if Returned(e) then TakeTurn(m, calls, formals, e.value, env, st, p) else
    match e
    case Call(f, es) =>
      if f == p.name && Len(es) == |p.params| then
        var (gs, st') := TakeOperands(m, calls, formals, es, 0, env, st, p);
        (if gs.StopsAll? then Exit(gs.got) else Repeat(gs.helds), st')
      else Exited(Take(m, calls, e, env, st))
    case If(c, t, f) =>
      var (g, st') := Take(m, calls, c, env, st);
      if !g.Has? then (Exit(g), st')
      else
        var v := Reify(g.held, st'.heaps);
        if !v.Bool? then (Exit(Stops(Stuck)), st')
        else TakeTurn(m, calls, formals, if v.b then t else f, env, st', p)
    case Let(y, v, b) =>
      if Discardable(v) && V(y) !in Free(b) then TakeTurn(m, calls, formals, b, env, st, p) else
      var (g, st') := Take(m, calls, v, env, st);
      if !g.Has? then (Exit(g), st') else TakeTurn(m, calls, formals, b, env[y := g.held], st', p)
    case Match(s, alts) =>
      var (g, st') := Take(m, calls, s, env, st);
      if !g.Has? then (Exit(g), st') else
      var a := Select(alts, Reify(g.held, st'.heaps));
      if a.None? then (Exit(Stops(Stuck)), st') else
      var (n, st'') := EnterArm(m, calls, s, a.value, env, st');
      if n.Out? then (Exit(n.got), st'') else TakeTurn(m, calls, formals, a.value.body, n.env, st'', p)
    case _ => Exited(Take(m, calls, e, env, st))
  }

  function Exited(r: (Got, Store)): (HeldTurn, Store) {
    (Exit(r.0), r.1)
  }

  // ---- a destructive turn refines a pure one ----

  predicate TurnAgrees(r: (HeldTurn, Store), t: Turn) {
    match r.0
    case Exit(g) => t.Leave? && Agrees(g, r.1.heaps, t.outcome)
    case Repeat(hs) => t.Again? && ReifyAll(hs, r.1.heaps) == t.formals
  }

  lemma {:induction false} OperandsOwnedTurn(
    m: Machine, calls: nat, formals: seq<Value>, es: Exprs, i: nat,
    env': HeldEnv, env: Env, owners: Owners, st: Store, p: Plan)
    requires p.Valid() && i + Len(es) == |p.params| == |formals|
    requires LinearAll(es, owners, p.name) && Ready(UsesAll(es, owners), owners, env', env, st) && owners != map[]
    requires LowersArgs(es, i, p)
    ensures RefinesAll(UsesAll(es, owners), st, TakeOperands(m, calls, formals, es, i, env', st, p),
                       Operands(m, calls, formals, es, i, env, p))
    decreases es, 1
  {
    if es.Cons? {
      OperandsOwnedCons(m, calls, formals, es, i, env', env, owners, st, p);
    } else {
      OperandsNil(m, calls, formals, es, i, env', env, owners, st, p);
    }
  }

  lemma {:induction false} OperandsOwnedCons(
    m: Machine, calls: nat, formals: seq<Value>, es: Exprs, i: nat,
    env': HeldEnv, env: Env, owners: Owners, st: Store, p: Plan)
    requires es.Cons? && p.Valid() && i + Len(es) == |p.params| == |formals|
    requires LinearAll(es, owners, p.name) && Ready(UsesAll(es, owners), owners, env', env, st) && owners != map[]
    requires LowersArgs(es, i, p)
    ensures RefinesAll(UsesAll(es, owners), st, TakeOperands(m, calls, formals, es, i, env', st, p),
                       Operands(m, calls, formals, es, i, env, p))
    decreases es, 0
  {
    OperandOwned(m, calls, formals, es, i, env', env, owners, st, p);
    var (g, st') := TakeOperand(m, calls, formals, es.head, i, env', st, p);
    if g.Has? {
      OperandEnds(m, calls, formals, es, i, env', st, p);
      OperandsOwnedTurn(m, calls, formals, es.tail, i + 1, env', env, owners, st', p);
    }
    OperandsCons(m, calls, formals, es, i, env', env, owners, st, p);
  }

  lemma OperandsNil(
    m: Machine, calls: nat, formals: seq<Value>, es: Exprs, i: nat,
    env': HeldEnv, env: Env, owners: Owners, st: Store, p: Plan)
    requires es.Nil? && p.Valid() && i == |p.params| == |formals| && st.mine <= st.heaps.Keys
    ensures RefinesAll(UsesAll(es, owners), st, TakeOperands(m, calls, formals, es, i, env', st, p),
                       Operands(m, calls, formals, es, i, env, p))
  {}

  lemma OperandsCons(
    m: Machine, calls: nat, formals: seq<Value>, es: Exprs, i: nat,
    env': HeldEnv, env: Env, owners: Owners, st: Store, p: Plan)
    requires es.Cons? && p.Valid() && i + Len(es) == |p.params| == |formals|
    requires Uses(es.head, owners) !! UsesAll(es.tail, owners)
    requires UsesAll(es, owners) == Uses(es.head, owners) + UsesAll(es.tail, owners)
    requires var r := TakeOperand(m, calls, formals, es.head, i, env', st, p);
      && Refines(Uses(es.head, owners), st, r, PureOperand(m, calls, formals, es.head, i, env, p))
      && (r.0.Has? ==> RefinesAll(UsesAll(es.tail, owners), r.1,
                                  TakeOperands(m, calls, formals, es.tail, i + 1, env', r.1, p),
                    Operands(m, calls, formals, es.tail, i + 1, env, p)))
    ensures RefinesAll(UsesAll(es, owners), st, TakeOperands(m, calls, formals, es, i, env', st, p),
                       Operands(m, calls, formals, es, i, env, p))
  {
    var (g, st') := TakeOperand(m, calls, formals, es.head, i, env', st, p);
    if g.Has? {
      ConsHelds(Uses(es.head, owners), UsesAll(es.tail, owners), st, g, st',
                PureOperand(m, calls, formals, es.head, i, env, p),
                TakeOperands(m, calls, formals, es.tail, i + 1, env', st', p),
                Operands(m, calls, formals, es.tail, i + 1, env, p));
    }
  }

  ghost function PureOperand(m: Machine, calls: nat, formals: seq<Value>, e: Expr, i: nat, env: Env, p: Plan): Outcome
    requires p.Valid() && i < |p.params| == |formals|
  {
    if p.changed[i] then Eval(m, calls, m.jumps, formals, e, env, NoJoin) else Ok(formals[i])
  }

  /** The first operand, evaluated or left alone, and the state it leaves for the others. */
  lemma OperandOwned(
    m: Machine, calls: nat, formals: seq<Value>, es: Exprs, i: nat,
    env': HeldEnv, env: Env, owners: Owners, st: Store, p: Plan)
    requires es.Cons? && p.Valid() && i + Len(es) == |p.params| == |formals|
    requires LinearAll(es, owners, p.name) && Ready(UsesAll(es, owners), owners, env', env, st) && owners != map[]
    requires LowersArgs(es, i, p)
    ensures var r := TakeOperand(m, calls, formals, es.head, i, env', st, p);
      && Refines(Uses(es.head, owners), st, r, PureOperand(m, calls, formals, es.head, i, env, p))
      && Ready(UsesAll(es.tail, owners), owners, env', env, r.1)
    ensures Uses(es.head, owners) !! UsesAll(es.tail, owners)
    ensures Ends(es.head) ==> LinearAll(es.tail, owners, p.name)
    ensures UsesAll(es, owners) == Uses(es.head, owners) + UsesAll(es.tail, owners)
  {
    LinearCons(es, owners, p.name);
    var first, second := Uses(es.head, owners), UsesAll(es.tail, owners);
    OwnsFewer(UsesAll(es, owners), first, env', env, st);
    TakeOwned(m, calls, m.jumps, formals, es.head, env', env, owners, p.name, st);
    var st' := TakeOperand(m, calls, formals, es.head, i, env', st, p).1;
    Handover(first, second, env', env, st, st');
  }

  /** An operand that has a value ends; one that is left alone is the formal itself. */
  lemma OperandEnds(m: Machine, calls: nat, formals: seq<Value>, es: Exprs, i: nat, env': HeldEnv, st: Store, p: Plan)
    requires es.Cons? && p.Valid() && i + Len(es) == |p.params| == |formals| && LowersArgs(es, i, p)
    requires TakeOperand(m, calls, formals, es.head, i, env', st, p).0.Has?
    ensures Ends(es.head)
  {
    if p.changed[i] {
      TakeEnds(m, calls, es.head, env', st);
    }
  }

  /** A turn of an accepted body agrees with the pure turn; in particular it never uses a
      buffer after handing it over. */
  lemma {:induction false} OwnedTurn(
    m: Machine, calls: nat, formals: seq<Value>, e: Expr,
    env': HeldEnv, env: Env, owners: Owners, st: Store, p: Plan)
    requires p.Valid() && |formals| == |p.params|
    requires Linear(e, owners, p.name) && Ready(Uses(e, owners), owners, env', env, st) && owners != map[]
    requires Lowers(e, true, p)
    ensures TurnAgrees(TakeTurn(m, calls, formals, e, env', st, p), Tail(m, calls, formals, e, env, p))
    decreases e, 1
  {
    if Returned(e) {
      LinearLet(e, owners, p.name);
      OwnsFewer(Uses(e, owners), Uses(e.value, owners), env', env, st);
      OwnedTurn(m, calls, formals, e.value, env', env, owners, st, p);
    } else {
      match e
      case Call(_, _) => TurnCall(m, calls, formals, e, env', env, owners, st, p);
      case If(_, _, _) => TurnIf(m, calls, formals, e, env', env, owners, st, p);
      case Let(_, _, _) => TurnLet(m, calls, formals, e, env', env, owners, st, p);
      case Match(_, _) => TurnMatch(m, calls, formals, e, env', env, owners, st, p);
      case _ => TakeOwned(m, calls, m.jumps, formals, e, env', env, owners, p.name, st);
    }
  }

  lemma {:induction false} TurnCall(
    m: Machine, calls: nat, formals: seq<Value>, e: Expr,
    env': HeldEnv, env: Env, owners: Owners, st: Store, p: Plan)
    requires e.Call? && p.Valid() && |formals| == |p.params|
    requires Linear(e, owners, p.name) && Ready(Uses(e, owners), owners, env', env, st) && owners != map[]
    requires Lowers(e, true, p)
    ensures TurnAgrees(TakeTurn(m, calls, formals, e, env', st, p), Tail(m, calls, formals, e, env, p))
    decreases e, 0
  {
    if e.callee == p.name && Len(e.args) == |p.params| {
      LinearOperands(e, owners, p.name);
      OperandsOwnedTurn(m, calls, formals, e.args, 0, env', env, owners, st, p);
    } else {
      TakeOwned(m, calls, m.jumps, formals, e, env', env, owners, p.name, st);
    }
  }

  lemma {:induction false} TurnIf(
    m: Machine, calls: nat, formals: seq<Value>, e: Expr,
    env': HeldEnv, env: Env, owners: Owners, st: Store, p: Plan)
    requires e.If? && p.Valid() && |formals| == |p.params|
    requires Linear(e, owners, p.name) && Ready(Uses(e, owners), owners, env', env, st) && owners != map[]
    requires Lowers(e, true, p)
    ensures TurnAgrees(TakeTurn(m, calls, formals, e, env', st, p), Tail(m, calls, formals, e, env, p))
    decreases e, 0
  {
    LinearIf(e, owners, p.name);
    var first := Uses(e.cond, owners);
    OwnsFewer(Uses(e, owners), first, env', env, st);
    TakeOwned(m, calls, m.jumps, formals, e.cond, env', env, owners, p.name, st);
    var (g, st') := Take(m, calls, e.cond, env', st);
    if g.Has? && Reify(g.held, st'.heaps).Bool? {
      var branch := if Reify(g.held, st'.heaps).b then e.yes else e.no;
      TakeEnds(m, calls, e.cond, env', st);
      OwnsFewer(Uses(e, owners), first + Uses(branch, owners), env', env, st);
      Handover(first, Uses(branch, owners), env', env, st, st');
      OwnedTurn(m, calls, formals, branch, env', env, owners, st', p);
    }
  }

  lemma {:induction false} TurnLet(
    m: Machine, calls: nat, formals: seq<Value>, e: Expr,
    env': HeldEnv, env: Env, owners: Owners, st: Store, p: Plan)
    requires e.Let? && !Returned(e) && p.Valid() && |formals| == |p.params|
    requires Linear(e, owners, p.name) && Ready(Uses(e, owners), owners, env', env, st) && owners != map[]
    requires Lowers(e, true, p)
    ensures TurnAgrees(TakeTurn(m, calls, formals, e, env', st, p), Tail(m, calls, formals, e, env, p))
    decreases e, 0
  {
    LinearLet(e, owners, p.name);
    var Let(y, v, b) := e;
    var first, second := Uses(v, owners), Uses(b, owners);
    if Discardable(v) && V(y) !in Free(b) {
      OwnsFewer(Uses(e, owners), second, env', env, st);
      OwnedTurn(m, calls, formals, b, env', env, owners, st, p);
    } else {
      OwnsFewer(Uses(e, owners), first, env', env, st);
      TakeOwned(m, calls, m.jumps, formals, v, env', env, owners, p.name, st);
      var (g, st') := Take(m, calls, v, env', st);
      if g.Has? {
        TakeEnds(m, calls, v, env', st);
        LetReady(first, second, y, g, env', env, owners, st, st');
        OwnedTurn(m, calls, formals, b, env'[y := g.held], env[y := Reify(g.held, st'.heaps)], owners, st', p);
      }
    }
  }

  lemma {:induction false} TurnMatch(
    m: Machine, calls: nat, formals: seq<Value>, e: Expr,
    env': HeldEnv, env: Env, owners: Owners, st: Store, p: Plan)
    requires e.Match? && p.Valid() && |formals| == |p.params|
    requires Linear(e, owners, p.name) && Ready(Uses(e, owners), owners, env', env, st) && owners != map[]
    requires Lowers(e, true, p)
    ensures TurnAgrees(TakeTurn(m, calls, formals, e, env', st, p), Tail(m, calls, formals, e, env, p))
    decreases e, 0
  {
    LinearMatch(e, owners, p.name);
    var Match(s, alts) := e;
    OwnsFewer(Uses(e, owners), Uses(s, owners), env', env, st);
    TakeOwned(m, calls, m.jumps, formals, s, env', env, owners, p.name, st);
    var (g, st') := Take(m, calls, s, env', st);
    if g.Has? {
      var u := Reify(g.held, st'.heaps);
      SelectTail(m, calls, formals, alts, u, env, p);
      if Select(alts, u).Some? {
        var a := ArmAccepted(m, calls, e, env', env, owners, p.name, st);
        OwnedTurn(m, calls, formals, a.body, Bind(a.binders, Plains(a.fields), env'), Bind(a.binders, a.fields, env),
                  owners, st', p);
      }
    }
  }

  // ---- accepted bodies have neither joins nor positional references ----

  lemma {:induction false} OwnedPlain(e: Expr, x: string, index: nat, self: string, owned: bool, n: nat)
    requires OwnedUses(e, x, index, self, owned)
    ensures JoinFree(e) && Naming.NoParam(e, n)
  {
    match e
    case Lit(_) =>
    case Var(_) =>
    case Unreachable =>
    case Prim(op, es) =>
      OperandsOwned(e, x, index, self, owned);
      OwnedPlainAll(es, x, index, self, true, n);
    case Call(f, es) =>
      OperandsOwned(e, x, index, self, owned);
      OwnedPlainAll(es, x, index, self, true, n);
    case If(c, t, f) =>
      OwnedPlain(c, x, index, self, false, n);
      OwnedPlain(t, x, index, self, owned, n);
      OwnedPlain(f, x, index, self, owned, n);
    case Let(_, v, b) =>
      OwnedPlain(v, x, index, self, false, n);
      OwnedPlain(b, x, index, self, owned, n);
    case Match(s, alts) =>
      OwnedPlain(s, x, index, self, false, n);
      OwnedPlainAlts(alts, x, index, self, owned, n);
  }

  lemma {:induction false} OwnedPlainAll(es: Exprs, x: string, index: nat, self: string, owned: bool, n: nat)
    requires OwnedUsesAll(es, x, index, self, owned)
    ensures JoinFreeAll(es) && Naming.NoParamAll(es, n)
  {
    match es
    case Nil =>
    case Cons(e, tail) =>
      OwnedPlain(e, x, index, self, owned, n);
      OwnedPlainAll(tail, x, index, self, owned, n);
  }

  lemma {:induction false} OwnedPlainAlts(alts: Alts, x: string, index: nat, self: string, owned: bool, n: nat)
    requires OwnedUsesAlts(alts, x, index, self, owned)
    ensures JoinFreeAlts(alts) && Naming.NoParamAlts(alts, n)
  {
    match alts
    case NoMore =>
    case Default(b) => OwnedPlain(b, x, index, self, owned, n);
    case Alt(_, _, b, rest) =>
      OwnedPlain(b, x, index, self, owned, n);
      OwnedPlainAlts(rest, x, index, self, owned, n);
  }

  // ---- bodies without dead ends ----

  /** Every path ends: no `unreachable` and no match without arms. */
  predicate Open(e: Expr) {
    match e
    case Lit(_) => true
    case Var(_) => true
    case Param(_) => true
    case Prim(_, es) => OpenAll(es)
    case If(c, t, f) => Open(c) && Open(t) && Open(f)
    case Let(_, v, b) => Open(v) && Open(b)
    case Match(s, alts) => Open(s) && OpenAlts(alts) && !alts.NoMore?
    case Call(_, es) => OpenAll(es)
    case Jp(_, _, c) => Open(c)
    case Jmp(_, es) => OpenAll(es)
    case Unreachable => false
  }

  predicate OpenAll(es: Exprs) {
    match es
    case Nil => true
    case Cons(e, tail) => Open(e) && OpenAll(tail)
  }

  predicate OpenAlts(alts: Alts) {
    match alts
    case NoMore => true
    case Default(b) => Open(b)
    case Alt(_, _, b, rest) => Open(b) && OpenAlts(rest)
  }

  lemma {:induction false} OpenEnds(e: Expr)
    requires Open(e)
    ensures Ends(e)
    decreases e
  {
    match e
    case Lit(_) =>
    case Var(_) =>
    case Param(_) =>
    case Jp(_, _, _) =>
    case Prim(_, es) => OpenEndsAll(es);
    case If(c, t, f) =>
      OpenEnds(c);
      OpenEnds(t);
    case Let(_, v, b) =>
      OpenEnds(v);
      OpenEnds(b);
    case Match(s, alts) =>
      OpenEnds(s);
      OpenEnds(if alts.Alt? then alts.body else alts.otherwise);
    case Call(_, es) => OpenEndsAll(es);
    case Jmp(_, es) => OpenEndsAll(es);
  }

  lemma {:induction false} OpenEndsAll(es: Exprs)
    requires OpenAll(es)
    ensures EndsAll(es)
    decreases es
  {
    match es
    case Nil =>
    case Cons(e, tail) =>
      OpenEnds(e);
      OpenEndsAll(tail);
  }

  /** There, an owned formal that occurs is moved, */
  lemma {:induction false} OpenMoves(e: Expr, x: string, index: nat, self: string, owned: bool)
    requires Open(e) && OwnedUses(e, x, index, self, owned) && VarUses(e, x) > 0
    ensures Moves(e, x)
    decreases e
  {
    OpenEnds(e);
    match e
    case Var(_) =>
    case Prim(_, es) =>
      OperandsOwned(e, x, index, self, owned);
      OpenMovesAll(es, x, index, self);
    case Call(_, es) =>
      OperandsOwned(e, x, index, self, owned);
      OpenMovesAll(es, x, index, self);
    case If(c, t, f) =>
      OpenEnds(t);
      if VarUses(c, x) > 0 { OpenMoves(c, x, index, self, false); }
      else if VarUses(t, x) > 0 { OpenMoves(t, x, index, self, owned); }
      else { OpenMoves(f, x, index, self, owned); }
    case Let(_, v, b) =>
      if VarUses(v, x) > 0 { OpenMoves(v, x, index, self, false); } else { OpenMoves(b, x, index, self, owned); }
    case Match(s, alts) =>
      if VarUses(s, x) > 0 { OpenMoves(s, x, index, self, false); } else { OpenMovesAlts(alts, x, index, self, owned); }
  }

  lemma {:induction false} OpenMovesAll(es: Exprs, x: string, index: nat, self: string)
    requires OpenAll(es) && OwnedUsesAll(es, x, index, self, true) && VarUsesAll(es, x) > 0
    ensures MovesAll(es, x)
    decreases es
  {
    OpenEndsAll(es);
    if VarUses(es.head, x) > 0 {
      OpenMoves(es.head, x, index, self, true);
    } else {
      OpenMovesAll(es.tail, x, index, self);
    }
  }

  lemma {:induction false} OpenMovesAlts(alts: Alts, x: string, index: nat, self: string, owned: bool)
    requires OpenAlts(alts) && OwnedUsesAlts(alts, x, index, self, owned) && VarUsesAlts(alts, x) > 0
    ensures MovesAlts(alts, x)
    decreases alts
  {
    match alts
    case Default(b) => OpenMoves(b, x, index, self, owned);
    case Alt(_, _, b, rest) =>
      if VarUses(b, x) > 0 { OpenMoves(b, x, index, self, owned); } else { OpenMovesAlts(rest, x, index, self, owned); }
  }

  /** so the check without flow is exact. */
  lemma {:induction false} OpenUnrepeated(e: Expr, x: string, index: nat, self: string, owned: bool)
    requires Open(e) && OwnedUses(e, x, index, self, owned) && !Rereads(e, x)
    ensures Unrepeated(e, x)
    decreases e
  {
    match e
    case Lit(_) =>
    case Var(_) =>
    case Prim(_, es) =>
      OperandsOwned(e, x, index, self, owned);
      OpenUnrepeatedAll(es, x, index, self);
    case Call(_, es) =>
      OperandsOwned(e, x, index, self, owned);
      OpenUnrepeatedAll(es, x, index, self);
    case If(c, t, f) =>
      OpenEnds(c);
      OpenUnrepeated(c, x, index, self, false);
      OpenUnrepeated(t, x, index, self, owned);
      OpenUnrepeated(f, x, index, self, owned);
    case Let(_, v, b) =>
      OpenEnds(v);
      OpenUnrepeated(v, x, index, self, false);
      OpenUnrepeated(b, x, index, self, owned);
    case Match(s, alts) =>
      OpenEnds(s);
      OpenUnrepeated(s, x, index, self, false);
      if VarUses(s, x) > 0 {
        OpenMoves(s, x, index, self, false);
      }
      OpenUnrepeatedAlts(alts, x, index, self, owned, VarUses(s, x) > 0, Moves(s, x));
  }

  lemma {:induction false} OpenUnrepeatedAll(es: Exprs, x: string, index: nat, self: string)
    requires OpenAll(es) && OwnedUsesAll(es, x, index, self, true) && !RereadsAll(es, x)
    ensures UnrepeatedAll(es, x)
    decreases es
  {
    match es
    case Nil =>
    case Cons(e, tail) =>
      OpenEnds(e);
      OpenUnrepeated(e, x, index, self, true);
      OpenUnrepeatedAll(tail, x, index, self);
  }

  lemma {:induction false} OpenUnrepeatedAlts(alts: Alts, x: string, index: nat, self: string, owned: bool,
                                              used: bool, moved: bool)
    requires OpenAlts(alts) && OwnedUsesAlts(alts, x, index, self, owned)
    requires !RereadsAlts(alts, x, moved) && (used ==> moved)
    ensures UnrepeatedAlts(alts, x, used)
    decreases alts
  {
    match alts
    case NoMore =>
    case Default(b) => OpenUnrepeated(b, x, index, self, owned);
    case Alt(_, _, b, rest) =>
      OpenUnrepeated(b, x, index, self, owned);
      OpenUnrepeatedAlts(rest, x, index, self, owned, used, moved);
  }

  // ---- the worker ----

  /** What an activation starts with: a buffer per owned formal, the other formals as locals. */
  function Buffers(params: seq<string>, owned: set<nat>, formals: seq<Value>): Heaps
    requires |formals| == |params| && Distinct(params) && forall i :: i in owned ==> i < |params|
  {
    map i | i in owned :: params[i] := formals[i]
  }

  function Opening(params: seq<string>, owned: set<nat>, formals: seq<Value>): Store
    requires |formals| == |params| && Distinct(params) && forall i :: i in owned ==> i < |params|
  {
    var heaps := Buffers(params, owned, formals);
    Store(heaps, heaps.Keys)
  }

  function OwnersOf(params: seq<string>, owned: set<nat>): Owners
    requires Distinct(params) && forall i :: i in owned ==> i < |params|
  {
    map i | i in owned :: params[i] := i
  }

  function Locals(params: seq<string>, owned: set<nat>, formals: seq<Value>): HeldEnv
    requires |formals| == |params| && Distinct(params) && forall i :: i in owned ==> i < |params|
  {
    Bind(params, Plains(formals), map[]) - Buffers(params, owned, formals).Keys
  }

  lemma {:induction false} PlainLocals(xs: seq<string>, vs: seq<Value>, env': HeldEnv, env: Env)
    requires |xs| == |vs| && env'.Keys == env.Keys && forall y :: y in env' ==> env'[y] == Plain(env[y])
    ensures var inner', inner := Bind(xs, Plains(vs), env'), Bind(xs, vs, env);
      inner'.Keys == inner.Keys && forall y :: y in inner' ==> inner'[y] == Plain(inner[y])
    decreases |xs|
  {
    if xs != [] {
      assert Plains(vs)[1..] == Plains(vs[1..]);
      PlainLocals(xs[1..], vs[1..], env'[xs[0] := Plain(vs[0])], env[xs[0] := vs[0]]);
    }
  }

  /** Every formal in `owned` is a candidate. */
  predicate Owned(d: Definition, owned: set<nat>)
    requires |d.types| == |d.params|
  {
    owned != {} && forall i :: i in owned ==> Candidate(d, i)
  }

  /** The compiler's move check on the formals that the worker takes by value; every back
      edge assigns them anew. */
  predicate Compiles(d: Definition, owned: set<nat>)
    requires forall i :: i in owned ==> i < |d.params|
  {
    forall i :: i in owned ==> !MoveCheck.After(d.body, d.params[i], MoveCheck.Mine).Refused?
  }

  /** No reachable arm repeats a scrutinee that moves an owned formal. */
  predicate MovesOnce(d: Definition, owned: set<nat>)
    requires forall i :: i in owned ==> i < |d.params|
  {
    forall i :: i in owned ==> !Rereads(d.body, d.params[i])
  }

  /** No arm repeats a scrutinee that an owned formal occurs in. */
  predicate Unrepeats(d: Definition, owned: set<nat>)
    requires forall i :: i in owned ==> i < |d.params|
  {
    forall i :: i in owned ==> Unrepeated(d.body, d.params[i])
  }

  /** A worker with owned formals is accepted by the compiler if and only if no reachable arm
      repeats a scrutinee that moves one of them; in a body without dead ends, if and only if
      no arm repeats a scrutinee that one of them occurs in. */
  lemma CompilesExactly(d: Definition, owned: set<nat>)
    requires |d.types| == |d.params| && Owned(d, owned)
    ensures forall i :: i in owned ==> i < |d.params|
    ensures Compiles(d, owned) <==> MovesOnce(d, owned)
    ensures Unrepeats(d, owned) ==> Compiles(d, owned)
    ensures Open(d.body) ==> (Compiles(d, owned) <==> Unrepeats(d, owned))
  {
    forall i | i in owned
      ensures i < |d.params|
      ensures MoveCheck.After(d.body, d.params[i], MoveCheck.Mine).Refused? <==> Rereads(d.body, d.params[i])
      ensures Unrepeated(d.body, d.params[i]) ==> !Rereads(d.body, d.params[i])
      ensures Open(d.body) && !Rereads(d.body, d.params[i]) ==> Unrepeated(d.body, d.params[i])
    {
      var x := d.params[i];
      OwnedPlain(d.body, x, i, d.name, false, 0);
      MoveCheck.MovedOnceCompiles(d.body, x);
      if Unrepeated(d.body, x) {
        UnrepeatedSafe(d.body, x);
      }
      if Open(d.body) && !Rereads(d.body, x) {
        OpenUnrepeated(d.body, x, i, d.name, false);
      }
    }
  }

  lemma OwnersLinear(d: Definition, owned: set<nat>)
    requires |d.types| == |d.params| && Distinct(d.params) && Owned(d, owned)
    requires MovesOnce(d, owned)
    ensures forall i :: i in owned ==> i < |d.params|
    ensures OwnersOf(d.params, owned) != map[] && Linear(d.body, OwnersOf(d.params, owned), d.name)
  {
    var owners := OwnersOf(d.params, owned);
    var i :| i in owned;
    assert d.params[i] in owners;
    forall x | x in owners
      ensures OwnedUses(d.body, x, owners[x], d.name, true) && SequentialUses(d.body, x) <= 1
      ensures !Rereads(d.body, x)
    {
      assert owners[x] in owned && Candidate(d, owners[x]);
      PathIsSequential(d.body, x, owners[x], d.name, false);
      OwnedMore(d.body, x, owners[x], d.name, false);
    }
  }

  lemma OpeningOwns(params: seq<string>, owned: set<nat>, formals: seq<Value>)
    requires |formals| == |params| && Distinct(params) && forall i :: i in owned ==> i < |params|
    ensures var st := Opening(params, owned, formals);
      && st.heaps.Keys == OwnersOf(params, owned).Keys
      && Owns(st.mine, Locals(params, owned, formals), Bind(params, formals, map[]), st)
  {
    PlainLocals(params, formals, map[], map[]);
    forall i | i in owned
      ensures params[i] in Bind(params, formals, map[]) && Bind(params, formals, map[])[params[i]] == formals[i]
    {
      BindValue(params, formals, map[], i);
    }
  }

  lemma OpeningReady(d: Definition, owned: set<nat>, formals: seq<Value>)
    requires |d.types| == |d.params| == |formals| && Distinct(d.params) && Owned(d, owned)
    requires MovesOnce(d, owned)
    ensures forall i :: i in owned ==> i < |d.params|
    ensures var owners := OwnersOf(d.params, owned);
      && owners != map[] && Linear(d.body, owners, d.name)
      && Ready(Uses(d.body, owners), owners, Locals(d.params, owned, formals),
               Bind(d.params, formals, map[]), Opening(d.params, owned, formals))
  {
    OwnersLinear(d, owned);
    var owners, st := OwnersOf(d.params, owned), Opening(d.params, owned, formals);
    OpeningOwns(d.params, owned, formals);
    OwnsFewer(st.mine, Uses(d.body, owners), Locals(d.params, owned, formals), Bind(d.params, formals, map[]), st);
  }

  /** The public wrapper: owned slices are copied, everything else is passed on. */
  method CopyOwned(owned: set<nat>, actuals: seq<Value>, slices: map<nat, array<Value>>) returns (formals: seq<Value>)
    requires forall i :: i in owned && i < |actuals| ==> i in slices && actuals[i] == Seq(slices[i][..])
    ensures formals == actuals
  {
    formals := [];
    for i := 0 to |actuals|
      invariant formals == actuals[..i]
    {
      formals := formals + [if i in owned then Seq(slices[i][..]) else actuals[i]];
    }
  }

  function Answer(g: Got, heaps: Heaps): Outcome {
    match g
    case Has(h) => Ok(Reify(h, heaps))
    case Stops(o) => o
    case UseAfterMove => Stuck
  }

  /** One turn of the worker, and what it stands for in the recursion. */
  method OneTurn(m: Machine, p: Plan, owned: set<nat>, calls: nat, formals: seq<Value>) returns (r: (HeldTurn, Store))
    requires Planned(m, p) && |formals| == |p.params|
    requires m.defs[p.name].name == p.name && |m.defs[p.name].types| == |p.params|
    requires Owned(m.defs[p.name], owned) && MovesOnce(m.defs[p.name], owned)
    ensures r.0.Repeat? ==> |r.0.helds| == |p.params|
    ensures r.0.Exit? ==> Answer(r.0.got, r.1.heaps) == Run(m, calls, p.name, formals)
    ensures r.0.Repeat? ==> After(m, calls, p, Again(ReifyAll(r.0.helds, r.1.heaps))) == Run(m, calls, p.name, formals)
  {
    var d := m.defs[p.name];
    OpeningReady(d, owned, formals);
    var locals, store := Locals(p.params, owned, formals), Opening(p.params, owned, formals);
    OwnedTurn(m, calls, formals, d.body, locals, Bind(p.params, formals, map[]), OwnersOf(p.params, owned), store, p);
    TurnRuns(m, p, calls, formals);
    r := TakeTurn(m, calls, formals, d.body, locals, store, p);
  }

  /** The owned worker behind the public slice interface: every owned slice is copied once,
      the copies are grown in place by every turn, and the slices are never written.  There
      is no worker to run if the compiler refuses it. */
  method RunOwned(m: Machine, p: Plan, owned: set<nat>, calls: nat, actuals: seq<Value>, slices: map<nat, array<Value>>)
    returns (o: Outcome)
    requires Planned(m, p) && |actuals| == |p.params|
    requires m.defs[p.name].name == p.name && |m.defs[p.name].types| == |p.params|
    requires Owned(m.defs[p.name], owned)
    requires forall i :: i in owned ==> i in slices && actuals[i] == Seq(slices[i][..])
    ensures o == if MovesOnce(m.defs[p.name], owned) then Run(m, calls, p.name, actuals) else Stuck
  {
    CompilesExactly(m.defs[p.name], owned);
    if !Compiles(m.defs[p.name], owned) {
      return Stuck;
    }
    var formals := CopyOwned(owned, actuals, slices);
    var left := calls;
    while true
      invariant |formals| == |p.params|
      invariant Run(m, left, p.name, formals) == Run(m, calls, p.name, actuals)
      decreases left
    {
      var r := OneTurn(m, p, owned, left, formals);
      if r.0.Exit? {
        return Answer(r.0.got, r.1.heaps);
      }
      if left == 0 {
        return OutOfFuel;
      }
      formals, left := ReifyAll(r.0.helds, r.1.heaps), left - 1;
    }
  }

  /** The same without a loop: one activation of the worker, whose calls are runs. */
  method RunOnce(m: Machine, f: string, owned: set<nat>, calls: nat, actuals: seq<Value>,
                 slices: map<nat, array<Value>>)
    returns (o: Outcome)
    requires f in m.defs && m.defs[f].name == f && |m.defs[f].types| == |m.defs[f].params| == |actuals|
    requires Distinct(m.defs[f].params) && Owned(m.defs[f], owned)
    requires forall i :: i in owned ==> i in slices && actuals[i] == Seq(slices[i][..])
    ensures o == if MovesOnce(m.defs[f], owned) then Run(m, calls, f, actuals) else Stuck
  {
    var d := m.defs[f];
    CompilesExactly(d, owned);
    if !Compiles(d, owned) {
      return Stuck;
    }
    var formals := CopyOwned(owned, actuals, slices);
    OpeningReady(d, owned, formals);
    var locals, store := Locals(d.params, owned, formals), Opening(d.params, owned, formals);
    ghost var env := Bind(d.params, formals, map[]);
    TakeOwned(m, calls, m.jumps, actuals, d.body, locals, env, OwnersOf(d.params, owned), d.name, store);
    var (g, after) := Take(m, calls, d.body, locals, store);
    o := Answer(g, after.heaps);
  }
}
