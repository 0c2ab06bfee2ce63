/** The lock-free bump allocator of the Core-Wasm guest, as a state machine.

    One action is one atomic access: a load of `NEXT`, a read of the memory size, a memory
    growth, a weak compare-exchange.  Threads interleave freely, loads may return any
    value, and compare-exchange and growth may fail for no reason.
 */
module BumpAllocator {
  import opened Wrappers

  const U32: nat := 0x1_0000_0000
  const PAGE: nat := 65_536

  /** `heap` is the address of `__heap_base`; `maximum` is also the linked memory limit. */
  datatype Config = Config(heap: nat, maximum: nat) {
    predicate Valid() {
      heap < U32 && 1 <= maximum <= 32_767
    }
  }

  // ---- arithmetic of one attempt ----

  predicate PowerOfTwo(n: nat) {
    n == 1 || (n > 1 && n % 2 == 0 && PowerOfTwo(n / 2))
  }

  /** Round up to a multiple; `None` is a trap. */
  function AlignTo(value: nat, alignment: nat): (r: Option<nat>)
    requires value < U32 && alignment < U32
    ensures r.Some? ==> value <= r.value < value + alignment && r.value < U32 && r.value % alignment == 0
    ensures r.None? <==> alignment < 8 || !PowerOfTwo(alignment) || value + alignment - 1 >= U32
  {
    if alignment < 8 || !PowerOfTwo(alignment) then None
    else if value + (alignment - 1) >= U32 then None
    else
      var aligned := value + (alignment - 1);
      RoundDown(aligned, alignment);
      Some(aligned - aligned % alignment)
  }

  lemma RoundDown(a: nat, d: nat)
    requires d > 0
    ensures (a - a % d) % d == 0 && a - a % d >= 0
  {
    assert a - a % d == d * (a / d);
    Multiple(d, a / d);
  }

  lemma Multiple(d: nat, q: nat)
    requires d > 0
    ensures (d * q) % d == 0
  {
    var x := d * q;
    var k := q - x / d;
    assert d * k == x % d;
    assert k >= 1 ==> d * (k - 1) >= 0;
    assert k <= -1 ==> d * (-k - 1) >= 0;
  }

  // ---- the same in 32-bit words ----

  /** The number a word denotes, lowest bit first. */
  function Value(x: bv32): nat {
    if x == 0 then 0 else 2 * Value(x >> 1) + Bit(x)
  }

  function Bit(x: bv32): (b: nat)
    ensures b < 2
  {
    if x & 1 == 1 then 1 else 0
  }

  lemma ValueStep(x: bv32)
    ensures Value(x) == 2 * Value(x >> 1) + Bit(x)
  {}

  lemma {:induction false} ValuePositive(x: bv32)
    ensures Value(x) == 0 <==> x == 0
  {
    if x > 1 {
      ValuePositive(x >> 1);
    }
  }

  /** The word test for a power of two is the arithmetic one. */
  predicate SingleBit(a: bv32) {
    a != 0 && a & (a - 1) == 0
  }

  lemma {:induction false} SingleBitIsPower(a: bv32)
    ensures SingleBit(a) <==> PowerOfTwo(Value(a))
  {
    if a > 1 {
      SingleBitIsPower(a >> 1);
      ValuePositive(a >> 1);
      SingleBitHalves(a);
    }
  }

  lemma SingleBitHalves(a: bv32)
    requires a > 1
    ensures SingleBit(a) <==> Bit(a) == 0 && SingleBit(a >> 1)
  {}

  lemma Remainder(r: nat, d: nat, q: nat)
    requires r < d
    ensures (r + d * q) % d == r
  {
    var x := r + d * q;
    var k := q - x / d;
    assert d * k == x % d - r;
    assert k >= 1 ==> d * (k - 1) >= 0;
    assert k <= -1 ==> d * (-k - 1) >= 0;
  }

  /** Halving commutes with the remainder. */
  lemma EvenRemainder(x: nat, d: nat, b: nat)
    requires d > 0 && b < 2
    ensures (2 * x + b) % (2 * d) == 2 * (x % d) + b
  {
    assert 2 * x + b == (2 * (x % d) + b) + (2 * d) * (x / d);
    Remainder(2 * (x % d) + b, 2 * d, x / d);
  }

  lemma MaskHalves(x: bv32, a: bv32)
    requires SingleBit(a) && a != 1
    ensures SingleBit(a >> 1) && Bit(a) == 0 && Bit(x & !(a - 1)) == 0
    ensures (x & !(a - 1)) >> 1 == (x >> 1) & !((a >> 1) - 1)
  {}

  /** The mask `x & !(a - 1)` is the largest multiple of the power of two `a` up to `x`: the
      number `AlignTo` computes. */
  lemma {:induction false} MaskIsFloor(x: bv32, a: bv32)
    requires SingleBit(a)
    ensures Value(a) > 0 && Value(x & !(a - 1)) == Value(x) - Value(x) % Value(a)
    decreases a
  {
    if a == 1 {
      assert x & !(a - 1) == x;
    } else {
      MaskHalves(x, a);
      MaskIsFloor(x >> 1, a >> 1);
      FloorFromHalf(x, a, x & !(a - 1));
    }
  }

  lemma FloorFromHalf(x: bv32, a: bv32, masked: bv32)
    requires Bit(a) == 0 && Bit(masked) == 0 && Value(a >> 1) > 0
    requires Value(masked >> 1) == Value(x >> 1) - Value(x >> 1) % Value(a >> 1)
    ensures Value(a) > 0 && Value(masked) == Value(x) - Value(x) % Value(a)
  {
    ValueStep(x);
    ValueStep(a);
    ValueStep(masked);
    EvenRemainder(Value(x >> 1), Value(a >> 1), Bit(x));
  }

  function HeapBase(c: Config): Option<nat>
    requires c.Valid()
  {
    AlignTo(c.heap, 8)
  }

  /** An empty allocation still needs its pointer inside memory. */
  function Required(start: nat, size: nat): nat {
    if size == 0 then start + 1 else start + size
  }

  /** Where an attempt would place its block; `None` is a trap. */
  function Place(c: Config, prior: nat, size: nat, alignment: nat): (r: Option<nat>)
    requires c.Valid() && prior < U32 && size < U32 && alignment < U32
    ensures r.Some? ==>
      && HeapBase(c).Some? && Max(prior, HeapBase(c).value) <= r.value
      && r.value % Max(alignment, 8) == 0 && r.value + size < U32 && r.value + 1 < U32
  {
    var base := HeapBase(c);
    if base.None? then None else
    var start := AlignTo(Max(prior, base.value), Max(alignment, 8));
    if start.None? || start.value + size >= U32 || Required(start.value, size) >= U32 then None
    else
      start
  }

  /** An address for the request: aligned, past the load and the heap base, and with its end
      (or, for an empty request, its pointer) below the end of the address space. */
  predicate Room(c: Config, prior: nat, size: nat, alignment: nat, a: nat) {
    && alignment > 0 && a % alignment == 0
    && prior <= a && c.heap <= a && a + size < U32 && a + 1 < U32
  }

  /** Multiples are a divisor apart. */
  lemma Gap(a: nat, b: nat, d: nat)
    requires d > 0 && a % d == 0 && b % d == 0 && a < b
    ensures a + d <= b
  {
    var p, q := a / d, b / d;
    assert a == d * p && b == d * q;
    assert q <= p ==> d * (p - q) >= 0;
    assert d * (q - p - 1) >= 0;
  }

  lemma DividesOnward(a: nat, d: nat, e: nat)
    requires d > 0 && e > 0 && a % d == 0 && d % e == 0
    ensures a % e == 0
  {
    var p, q := a / d, d / e;
    assert a == d * p && d == e * q;
    assert a == e * (q * p);
    Multiple(e, q * p);
  }

  /** Of two powers of two the smaller divides the larger. */
  lemma {:induction false} PowerDivides(a: nat, n: nat)
    requires PowerOfTwo(a) && PowerOfTwo(n) && a <= n
    ensures n % a == 0
  {
    if a > 1 {
      PowerDivides(a / 2, n / 2);
      EvenRemainder(n / 2, a / 2, 0);
    }
  }

  lemma {:induction false} PowersMultiply(a: nat, b: nat)
    requires PowerOfTwo(a) && PowerOfTwo(b)
    ensures PowerOfTwo(a * b)
    decreases a
  {
    if a > 1 {
      PowersMultiply(a / 2, b);
      assert a * b == 2 * (a / 2 * b);
    }
  }

  lemma WordsArePower()
    ensures PowerOfTwo(U32)
  {
    assert PowerOfTwo(16);
    PowersMultiply(16, 16);
    PowersMultiply(0x100, 0x100);
    PowersMultiply(0x1_0000, 0x1_0000);
  }

  /** Rounding up overflows only when no multiple is left. */
  lemma NoMultiple(value: nat, alignment: nat, a: nat)
    requires PowerOfTwo(alignment) && alignment < U32 && value + alignment - 1 >= U32
    requires a % alignment == 0 && value <= a
    ensures a >= U32
  {
    WordsArePower();
    PowerDivides(alignment, U32);
    if a < U32 {
      Gap(a, U32, alignment);
    }
  }

  lemma LeastMultiple(value: nat, alignment: nat, a: nat)
    requires value < U32 && 8 <= alignment < U32 && PowerOfTwo(alignment)
    requires a % alignment == 0 && value <= a < U32
    ensures AlignTo(value, alignment).Some? && AlignTo(value, alignment).value <= a
  {
    if value + alignment - 1 >= U32 {
      NoMultiple(value, alignment, a);
    } else {
      var least := AlignTo(value, alignment).value;
      if a < least {
        Gap(a, least, alignment);
      }
    }
  }

  lemma LeastRoom(c: Config, prior: nat, size: nat, alignment: nat, a: nat)
    requires c.Valid() && prior < U32 && size < U32 && alignment < U32
    requires PowerOfTwo(Max(alignment, 8)) && Room(c, prior, size, Max(alignment, 8), a)
    ensures Place(c, prior, size, alignment).Some? && Place(c, prior, size, alignment).value <= a
  {
    var align := Max(alignment, 8);
    assert PowerOfTwo(8);
    PowerDivides(8, align);
    DividesOnward(a, align, 8);
    LeastMultiple(c.heap, 8, a);
    LeastMultiple(Max(prior, HeapBase(c).value), align, a);
  }

  /** An attempt takes the least address with room and traps when there is none, or when the
      alignment is not a power of two. */
  lemma PlaceExactly(c: Config, prior: nat, size: nat, alignment: nat)
    requires c.Valid() && prior < U32 && size < U32 && alignment < U32
    ensures var least := Place(c, prior, size, alignment);
      && (least.Some? <==>
            PowerOfTwo(Max(alignment, 8)) && exists a :: Room(c, prior, size, Max(alignment, 8), a))
      && (least.Some? ==> Room(c, prior, size, Max(alignment, 8), least.value))
      && (least.Some? ==> forall a :: Room(c, prior, size, Max(alignment, 8), a) ==> least.value <= a)
  {
    forall a | PowerOfTwo(Max(alignment, 8)) && Room(c, prior, size, Max(alignment, 8), a)
      ensures Place(c, prior, size, alignment).Some? && Place(c, prior, size, alignment).value <= a
    {
      LeastRoom(c, prior, size, alignment, a);
    }
    if Place(c, prior, size, alignment).Some? {
      assert Room(c, prior, size, Max(alignment, 8), Place(c, prior, size, alignment).value);
    }
  }

  /** Pages missing: none, some, or too many (a trap). */
  function Missing(c: Config, pages: nat, required: nat): (r: Option<nat>)
    requires c.Valid() && required < U32
    ensures r.Some? ==> pages + r.value <= c.maximum && required <= (pages + r.value) * PAGE
    ensures r.Some? && r.value > 0 ==> (pages + r.value - 1) * PAGE < required
    ensures r.None? <==> pages > c.maximum || required > c.maximum * PAGE
  {
    if pages > c.maximum then None
    else if required <= pages * PAGE then Some(0)
    else
      var grow := (required - pages * PAGE + 65_535) / PAGE;
      if pages + grow > c.maximum then None else Some(grow)
  }

  // ---- the machine ----

  /** Where a thread stands inside `allocate`. */
  datatype Phase =
    | Idle
    | Loaded(size: nat, alignment: nat, prior: nat)
    | Placed(size: nat, alignment: nat, prior: nat, start: nat)
    | Growing(size: nat, alignment: nat, prior: nat, start: nat, grow: nat)
    | Backed(size: nat, alignment: nat, prior: nat, start: nat)
    | Trapped

  datatype Block = Block(start: nat, size: nat, alignment: nat) {
    function End(): nat { start + size }
  }

  /** `given` lists the blocks returned so far, oldest first. */
  datatype State = State(next: nat, pages: nat, threads: map<nat, Phase>, given: seq<Block>) {
    function Phase(t: nat): Phase {
      if t in threads then threads[t] else Idle
    }

    function Moved(t: nat, p: Phase): State {
      this.(threads := threads[t := p])
    }
  }

  /** `Load` enters the loop for a request or goes round again with the same one. */
  datatype Action =
    | Request(t: nat, size: nat, alignment: nat, seen: nat)
    | Align(t: nat)
    | ReadSize(t: nat)
    | Grow(t: nat, granted: bool)
    | Exchange(t: nat, spurious: bool, seen: nat)

  /** One atomic access by one thread; an action that does not apply changes nothing. */
  function Step(c: Config, s: State, a: Action): State
    requires c.Valid()
  {
    var p := s.Phase(a.t);
    match a
    case Request(t, size, alignment, seen) =>
      if p.Idle? && size < U32 && alignment < U32 && seen < U32 then s.Moved(t, Loaded(size, alignment, seen)) else s
    case Align(t) =>
      if !p.Loaded? || p.prior >= U32 || p.size >= U32 || p.alignment >= U32 then s else
      var start := Place(c, p.prior, p.size, p.alignment);
      s.Moved(t, if start.None? then Trapped else Placed(p.size, p.alignment, p.prior, start.value))
    case ReadSize(t) =>
      if !p.Placed? || Required(p.start, p.size) >= U32 then s else
      var grow := Missing(c, s.pages, Required(p.start, p.size));
      s.Moved(t, if grow.None? then Trapped
                 else if grow.value == 0 then Backed(p.size, p.alignment, p.prior, p.start)
                 else Growing(p.size, p.alignment, p.prior, p.start, grow.value))
    case Grow(t, granted) =>
      if !p.Growing? then s
      else if granted && s.pages + p.grow <= c.maximum then
        s.Moved(t, Backed(p.size, p.alignment, p.prior, p.start)).(pages := s.pages + p.grow)
      else s.Moved(t, Trapped)
    case Exchange(t, spurious, seen) =>
      if !p.Backed? || seen >= U32 then s
      else if s.next == p.prior && !spurious then
        s.Moved(t, Idle).(next := p.start + p.size, given := s.given + [Block(p.start, p.size, Max(p.alignment, 8))])
      else s.Moved(t, Loaded(p.size, p.alignment, seen))
  }

  function Run(c: Config, s: State, actions: seq<Action>): State
    requires c.Valid()
    decreases |actions|
  {
    if actions == [] then s
    else Step(c, Run(c, s, actions[..|actions| - 1]), actions[|actions| - 1])
  }

  function Start(pages: nat): State {
    State(0, pages, map[], [])
  }

  // ---- the invariant ----

  /** What a placed block satisfies before it is published. */
  ghost predicate Candidate(c: Config, start: nat, size: nat, alignment: nat, prior: nat)
    requires c.Valid()
  {
    && HeapBase(c).Some? && HeapBase(c).value <= start && prior <= start
    && Max(alignment, 8) < U32 && start % Max(alignment, 8) == 0 && Required(start, size) < U32
  }

  ghost predicate ThreadInv(c: Config, s: State, p: Phase)
    requires c.Valid()
  {
    match p
    case Idle => true
    case Trapped => true
    case Loaded(size, alignment, prior) => size < U32 && alignment < U32 && prior < U32
    case Placed(size, alignment, prior, start) =>
      size < U32 && alignment < U32 && Candidate(c, start, size, alignment, prior)
    case Growing(size, alignment, prior, start, grow) =>
      && size < U32 && alignment < U32 && Candidate(c, start, size, alignment, prior)
      && Required(start, size) <= (s.pages + grow) * PAGE
    case Backed(size, alignment, prior, start) =>
      && size < U32 && alignment < U32 && Candidate(c, start, size, alignment, prior)
      && Required(start, size) <= s.pages * PAGE
  }

  ghost predicate BlockInv(c: Config, s: State, b: Block)
    requires c.Valid()
  {
    && HeapBase(c).Some? && HeapBase(c).value <= b.start
    && b.alignment >= 8 && b.start % b.alignment == 0
    && b.End() <= s.next && Required(b.start, b.size) <= s.pages * PAGE
  }

  ghost predicate Inv(c: Config, s: State) {
    && c.Valid() && s.pages <= c.maximum
    && (forall t :: t in s.threads ==> ThreadInv(c, s, s.threads[t]))
    && (forall i :: 0 <= i < |s.given| ==> BlockInv(c, s, s.given[i]))
    && (forall i, k :: 0 <= i < k < |s.given| ==> s.given[i].End() <= s.given[k].start)
  }

  /** Nothing shrinks, and only `t` moved. */
  ghost predicate Moves(s: State, s': State, t: nat, p: Phase) {
    s'.threads == s.threads[t := p] && s.pages <= s'.pages && s.next <= s'.next
  }

  lemma ThreadsKept(c: Config, s: State, s': State, t: nat, p: Phase)
    requires Inv(c, s) && Moves(s, s', t, p) && ThreadInv(c, s', p)
    ensures forall u :: u in s'.threads ==> ThreadInv(c, s', s'.threads[u])
  {
    forall u | u in s'.threads
      ensures ThreadInv(c, s', s'.threads[u])
    {
      if u != t {
        assert ThreadInv(c, s, s.threads[u]);
      }
    }
  }

  /** A step that returns no block. */
  lemma MoveKeeps(c: Config, s: State, s': State, t: nat, p: Phase)
    requires Inv(c, s) && Moves(s, s', t, p) && ThreadInv(c, s', p)
    requires s'.pages <= c.maximum && s'.given == s.given
    ensures Inv(c, s')
  {
    ThreadsKept(c, s, s', t, p);
    forall i | 0 <= i < |s.given|
      ensures BlockInv(c, s', s'.given[i])
    {
      assert BlockInv(c, s, s.given[i]);
    }
  }

  /** The step that returns a block. */
  lemma GiveKeeps(c: Config, s: State, s': State, t: nat)
    requires Inv(c, s) && s.Phase(t).Backed? && s.next == s.Phase(t).prior
    requires s' == Step(c, s, Exchange(t, false, 0))
    ensures Inv(c, s')
  {
    var p := s.Phase(t);
    assert ThreadInv(c, s, p);
    ThreadsKept(c, s, s', t, Idle);
    forall i | 0 <= i < |s'.given|
      ensures BlockInv(c, s', s'.given[i])
    {
      if i < |s.given| {
        assert BlockInv(c, s, s.given[i]);
      }
    }
    forall i, k | 0 <= i < k < |s'.given|
      ensures s'.given[i].End() <= s'.given[k].start
    {
      assert BlockInv(c, s, s.given[i]);
    }
  }

  lemma PlaceKeeps(c: Config, s: State, t: nat)
    requires Inv(c, s)
    ensures Inv(c, Step(c, s, Align(t)))
  {
    var p, s' := s.Phase(t), Step(c, s, Align(t));
    if s' != s {
      assert ThreadInv(c, s, p);
      MoveKeeps(c, s, s', t, s'.threads[t]);
    }
  }

  lemma SizeKeeps(c: Config, s: State, t: nat)
    requires Inv(c, s)
    ensures Inv(c, Step(c, s, ReadSize(t)))
  {
    var p, s' := s.Phase(t), Step(c, s, ReadSize(t));
    if s' != s {
      assert ThreadInv(c, s, p);
      MoveKeeps(c, s, s', t, s'.threads[t]);
    }
  }

  lemma GrowKeeps(c: Config, s: State, t: nat, granted: bool)
    requires Inv(c, s)
    ensures Inv(c, Step(c, s, Grow(t, granted)))
  {
    var p, s' := s.Phase(t), Step(c, s, Grow(t, granted));
    if s' != s {
      assert ThreadInv(c, s, p);
      MoveKeeps(c, s, s', t, s'.threads[t]);
    }
  }

  lemma ExchangeKeeps(c: Config, s: State, t: nat, spurious: bool, seen: nat)
    requires Inv(c, s)
    ensures Inv(c, Step(c, s, Exchange(t, spurious, seen)))
  {
    var p, s' := s.Phase(t), Step(c, s, Exchange(t, spurious, seen));
    if p.Backed? && seen < U32 {
      if s.next == p.prior && !spurious {
        GiveKeeps(c, s, s', t);
      } else {
        assert ThreadInv(c, s, p);
        MoveKeeps(c, s, s', t, s'.threads[t]);
      }
    }
  }

  /** Every action of every thread keeps the invariant. */
  lemma StepKeeps(c: Config, s: State, a: Action)
    requires Inv(c, s)
    ensures Inv(c, Step(c, s, a))
  {
    match a
    case Request(t, _, _, _) =>
      var s' := Step(c, s, a);
      if s' != s {
        MoveKeeps(c, s, s', t, s'.threads[t]);
      }
    case Align(t) => PlaceKeeps(c, s, t);
    case ReadSize(t) => SizeKeeps(c, s, t);
    case Grow(t, granted) => GrowKeeps(c, s, t, granted);
    case Exchange(t, spurious, seen) => ExchangeKeeps(c, s, t, spurious, seen);
  }

  lemma {:induction false} RunKeeps(c: Config, s: State, actions: seq<Action>)
    requires Inv(c, s)
    ensures Inv(c, Run(c, s, actions))
    decreases |actions|
  {
    if actions != [] {
      RunKeeps(c, s, actions[..|actions| - 1]);
      StepKeeps(c, Run(c, s, actions[..|actions| - 1]), actions[|actions| - 1]);
    }
  }

  ghost predicate Apart(a: Block, b: Block) {
    a.End() <= b.start || b.End() <= a.start
  }

  /** Over every run: blocks are pairwise apart, aligned, above the heap base and inside the
      memory grown so far, and every pointer is a nonnegative `i32`. */
  lemma AllocationsAreSafe(c: Config, pages: nat, actions: seq<Action>)
    requires c.Valid() && pages <= c.maximum
    ensures var s := Run(c, Start(pages), actions);
      && s.pages <= c.maximum
      && (forall i, k :: 0 <= i < k < |s.given| ==> Apart(s.given[i], s.given[k]))
      && (forall i :: 0 <= i < |s.given| ==>
            var b := s.given[i];
            && c.heap <= b.start && b.alignment > 0 && b.start % b.alignment == 0
            && b.start < s.pages * PAGE && b.End() <= s.pages * PAGE
            && b.start < 0x8000_0000 && b.End() < 0x8000_0000)
  {
    RunKeeps(c, Start(pages), actions);
    var s := Run(c, Start(pages), actions);
    forall i | 0 <= i < |s.given|
      ensures var b := s.given[i];
        && c.heap <= b.start && b.alignment > 0 && b.start % b.alignment == 0
        && b.start < s.pages * PAGE && b.End() <= s.pages * PAGE
        && b.start < 0x8000_0000 && b.End() < 0x8000_0000
    {
      assert BlockInv(c, s, s.given[i]);
    }
  }

  /** Later actions never move, shrink or take back a returned block, nor shrink memory. */
  lemma {:induction false} GivenForGood(c: Config, s: State, actions: seq<Action>)
    requires Inv(c, s)
    ensures s.given <= Run(c, s, actions).given && s.pages <= Run(c, s, actions).pages
    decreases |actions|
  {
    if actions != [] {
      var n := |actions| - 1;
      GivenForGood(c, s, actions[..n]);
      RunKeeps(c, s, actions[..n]);
    }
  }

  // ---- an attempt nobody disturbs ----

  function Attempt(t: nat, size: nat, alignment: nat, seen: nat): seq<Action> {
    [Request(t, size, alignment, seen), Align(t), ReadSize(t), Grow(t, true), Exchange(t, false, seen)]
  }

  lemma RunSnoc(c: Config, s: State, actions: seq<Action>, a: Action)
    requires c.Valid()
    ensures Run(c, s, actions + [a]) == Step(c, Run(c, s, actions), a)
  {
    assert (actions + [a])[..|actions|] == actions;
  }

  lemma RunAttempt(c: Config, s: State, t: nat, size: nat, alignment: nat, seen: nat)
    requires c.Valid()
    ensures var loaded := Step(c, s, Request(t, size, alignment, seen));
      var placed := Step(c, loaded, Align(t));
      var sized := Step(c, placed, ReadSize(t));
      var backed := Step(c, sized, Grow(t, true));
      Run(c, s, Attempt(t, size, alignment, seen)) == Step(c, backed, Exchange(t, false, seen))
  {
    var request, place, read, grow, exchange :=
      Request(t, size, alignment, seen), Align(t), ReadSize(t), Grow(t, true), Exchange(t, false, seen);
    assert Run(c, s, []) == s;
    RunSnoc(c, s, [], request);
    assert [] + [request] == [request];
    RunSnoc(c, s, [request], place);
    assert [request] + [place] == [request, place];
    RunSnoc(c, s, [request, place], read);
    assert [request, place] + [read] == [request, place, read];
    RunSnoc(c, s, [request, place, read], grow);
    assert [request, place, read] + [grow] == [request, place, read, grow];
    RunSnoc(c, s, [request, place, read, grow], exchange);
    assert [request, place, read, grow] + [exchange] == Attempt(t, size, alignment, seen);
  }

  /** An attempt on its own gives the block and grows the memory it lacks, whatever other threads
      have begun, or traps exactly when there is no address for it or too little memory. */
  lemma UndisturbedAttempt(c: Config, s: State, t: nat, size: nat, alignment: nat)
    requires c.Valid() && s.Phase(t).Idle? && s.next < U32 && size < U32 && alignment < U32
    ensures var s' := Run(c, s, Attempt(t, size, alignment, s.next));
      var start := Place(c, s.next, size, alignment);
      var grow := if start.Some? then Missing(c, s.pages, Required(start.value, size)) else None;
      && (grow.None? ==> s'.Phase(t).Trapped? && s'.next == s.next && s'.pages == s.pages && s'.given == s.given)
      && (grow.Some? ==>
            && s'.Phase(t).Idle? && s'.next == start.value + size && s'.pages == s.pages + grow.value
            && s'.given == s.given + [Block(start.value, size, Max(alignment, 8))])
  {
    RunAttempt(c, s, t, size, alignment, s.next);
  }

  // ---- the entry point ----

  /** The guard against an output block that overlaps the input: `true` is a trap. */
  predicate Overlaps(input: Block, output: Block) {
    input.start < output.End() && output.start < input.End()
  }

  /** Input inside one returned block, output in another: the guard never fires. */
  lemma GuardNeverFires(c: Config, pages: nat, actions: seq<Action>, i: nat, k: nat, length: nat)
    requires c.Valid() && pages <= c.maximum
    requires i != k && i < |Run(c, Start(pages), actions).given| && k < |Run(c, Start(pages), actions).given|
    requires length <= Run(c, Start(pages), actions).given[i].size
    ensures var given := Run(c, Start(pages), actions).given;
            !Overlaps(Block(given[i].start, length, 8), given[k])
  {
    AllocationsAreSafe(c, pages, actions);
    var given := Run(c, Start(pages), actions).given;
    assert Apart(given[if i < k then i else k], given[if i < k then k else i]);
  }

  /** `(ptr << 32) | len`, in 64 bits. */
  function Pack(pointer: bv64, length: bv64): bv64 {
    (pointer << 32) | length
  }

  /** Both halves come back, and the result is nonnegative as an `i64` exactly when the
      pointer is nonnegative as an `i32`. */
  lemma PackRoundTrip(pointer: bv64, length: bv64)
    requires pointer < 0x1_0000_0000 && length < 0x1_0000_0000
    ensures Pack(pointer, length) >> 32 == pointer
    ensures Pack(pointer, length) & 0xFFFF_FFFF == length
    ensures Pack(pointer, length) < 0x8000_0000_0000_0000 <==> pointer < 0x8000_0000
  {}
}
