/** The bounded parallel map of the host runtime, over every interleaving of its workers.

    A worker step is one call of the closure on one slot.  Workers are scheduled in any
    order; `ScheduleIndependent` and the method `ParallelMap` show that the outcome is the
    sequential one.  The closure is deterministic, owns its slot, and does not panic.
 */
module ParallelMap {
  import opened Wrappers

  /** What one call leaves in the slot, and whether it failed. */
  datatype Applied<U, E> = Applied(slot: U, error: Option<E>)

  datatype MapResult<E> =
    | Mapped
    | InvalidWorkerCount
    | LengthMismatch(input: nat, output: nat)
    | Worker(error: E)

  // ---- chunks ----

  function DivCeil(n: nat, d: nat): (q: nat)
    requires d > 0
    ensures q * d >= n && (q > 0 ==> (q - 1) * d < n)
  {
    var q := n / d;
    assert n == q * d + n % d;
    if n % d == 0 then q else
      assert (q + 1) * d == q * d + d;
      q + 1
  }

  lemma {:induction false} Scale(a: nat, b: nat, d: nat)
    requires a <= b
    ensures a * d <= b * d
    decreases b - a
  {
    if a < b {
      assert (a + 1) * d == a * d + d;
      Scale(a + 1, b, d);
    }
  }

  lemma DivCeilLeast(n: nat, d: nat, w: nat)
    requires d > 0 && w * d >= n
    ensures DivCeil(n, d) <= w
  {
    var q := DivCeil(n, d);
    if q > w {
      Scale(w, q - 1, d);
    }
  }

  /** Chunks of size `ceil(n / w)` never need more than `w` workers. */
  lemma WorkersBounded(n: nat, w: nat)
    requires n > 0 && w > 0
    ensures DivCeil(n, w) > 0 && DivCeil(n, DivCeil(n, w)) <= w
  {
    var size := DivCeil(n, w);
    assert size > 0;
    assert w * size == size * w;
    DivCeilLeast(n, size, w);
  }

  /** One call of the map: the closure, its input, the slots it starts from, the chunk size. */
  datatype Job<!T, !U, E> = Job(input: seq<T>, before: seq<U>, f: (T, U) -> Applied<U, E>, size: nat) {
    predicate Valid() {
      |input| == |before| && size > 0
    }

    function Chunks(): nat
      requires Valid()
    {
      DivCeil(|input|, size)
    }

    function Lo(k: nat): nat {
      k * size
    }

    function Hi(k: nat): nat {
      if Lo(k + 1) < |input| then Lo(k + 1) else |input|
    }

    /** The worker whose chunk holds the slot. */
    function Own(i: nat): nat
      requires size > 0
    {
      i / size
    }

    function At(i: nat): Applied<U, E>
      requires Valid() && i < |input|
    {
      f(input[i], before[i])
    }
  }

  /** Chunks tile the slots: every slot lies in exactly one. */
  lemma ChunksTile<T, U, E>(job: Job<T, U, E>, i: nat)
    requires job.Valid() && i < |job.input|
    ensures job.Own(i) < job.Chunks()
    ensures forall k: nat :: job.Lo(k) <= i < job.Hi(k) <==> k == job.Own(i)
  {
    var own := job.Own(i);
    OwnBounds(job, i);
    forall k: nat | k != own
      ensures !(job.Lo(k) <= i < job.Hi(k))
    {
      LoOrder(job, k, own);
      LoOrder(job, own, k);
    }
    OwnExists(job, i);
  }

  lemma OwnBounds<T, U, E>(job: Job<T, U, E>, i: nat)
    requires job.size > 0
    ensures job.Lo(job.Own(i)) <= i < job.Lo(job.Own(i) + 1)
  {
    var own := job.Own(i);
    assert i == own * job.size + i % job.size;
    assert (own + 1) * job.size == own * job.size + job.size;
  }

  lemma OwnExists<T, U, E>(job: Job<T, U, E>, i: nat)
    requires job.Valid() && i < |job.input|
    ensures job.Own(i) < job.Chunks()
  {
    OwnBounds(job, i);
    if job.Chunks() <= job.Own(i) {
      Scale(job.Chunks(), job.Own(i), job.size);
    }
  }

  lemma LoOrder<T, U, E>(job: Job<T, U, E>, j: nat, k: nat)
    requires job.size > 0
    ensures j < k ==> job.Lo(j + 1) <= job.Lo(k)
  {
    if j < k {
      Scale(j + 1, k, job.size);
    }
  }

  lemma ChunkNonEmpty<T, U, E>(job: Job<T, U, E>, k: nat)
    requires job.Valid() && k < job.Chunks()
    ensures job.Lo(k) < job.Hi(k) <= |job.input|
  {
    Scale(k, job.Chunks() - 1, job.size);
    assert job.Lo(k + 1) == job.Lo(k) + job.size;
  }

  // ---- workers ----

  /** Slots, and per worker the next slot it will try and its error. */
  datatype State<U, E> = State(slots: seq<U>, next: seq<nat>, failed: seq<Option<E>>)

  predicate Shaped<T, U, E>(job: Job<T, U, E>, s: State<U, E>) {
    job.Valid() && |s.slots| == |job.input| && |s.next| == |s.failed| == job.Chunks()
  }

  predicate Finished<T, U, E>(job: Job<T, U, E>, s: State<U, E>, k: nat)
    requires Shaped(job, s) && k < job.Chunks()
  {
    s.failed[k].Some? || s.next[k] >= job.Hi(k)
  }

  /** Worker `k` makes its next call; a finished or unknown worker does nothing. */
  function Step<T, U, E>(job: Job<T, U, E>, s: State<U, E>, k: nat): (r: State<U, E>)
    requires Shaped(job, s)
    ensures Shaped(job, r)
  {
    if k >= job.Chunks() || Finished(job, s, k) || s.next[k] >= |job.input| then s else
    var i := s.next[k];
    var a := job.f(job.input[i], s.slots[i]);
    State(s.slots[i := a.slot], s.next[k := i + 1], s.failed[k := a.error])
  }

  function Start<T, U, E>(job: Job<T, U, E>): (r: State<U, E>)
    requires job.Valid()
    ensures Shaped(job, r)
  {
    State(job.before, seq(job.Chunks(), (k: nat) => job.Lo(k)), seq(job.Chunks(), (k: nat) => None))
  }

  /** Any schedule: the worker that moves next, at each moment. */
  function Run<T, U, E>(job: Job<T, U, E>, schedule: seq<nat>): (r: State<U, E>)
    requires job.Valid()
    ensures Shaped(job, r)
    decreases |schedule|
  {
    if schedule == [] then Start(job)
    else Step(job, Run(job, schedule[..|schedule| - 1]), schedule[|schedule| - 1])
  }

  /** The calls a worker has made are its first ones, on untouched slots, and only the last
      may have failed. */
  ghost predicate WorkerInv<T, U, E>(job: Job<T, U, E>, s: State<U, E>, k: nat)
    requires Shaped(job, s) && k < job.Chunks()
  {
    && job.Lo(k) <= s.next[k] <= job.Hi(k) <= |job.input|
    && (s.failed[k].Some? ==> job.Lo(k) < s.next[k])
    && (forall i :: job.Lo(k) <= i < s.next[k] ==>
          && s.slots[i] == job.At(i).slot
          && job.At(i).error == if i == s.next[k] - 1 then s.failed[k] else None)
    && (forall i :: s.next[k] <= i < job.Hi(k) ==> s.slots[i] == job.before[i])
  }

  ghost predicate Inv<T, U, E>(job: Job<T, U, E>, s: State<U, E>) {
    Shaped(job, s) && forall k :: 0 <= k < job.Chunks() ==> WorkerInv(job, s, k)
  }

  lemma StartInv<T, U, E>(job: Job<T, U, E>)
    requires job.Valid()
    ensures Inv(job, Start(job))
  {
    forall k | 0 <= k < job.Chunks()
      ensures WorkerInv(job, Start(job), k)
    {
      ChunkNonEmpty(job, k);
    }
  }

  /** A step writes one slot at most, and that slot is in the worker's own chunk. */
  lemma StepOwnsSlot<T, U, E>(job: Job<T, U, E>, s: State<U, E>, k: nat, i: nat)
    requires Inv(job, s) && i < |job.input| && job.Own(i) != k
    ensures Step(job, s, k).slots[i] == s.slots[i]
  {
    if k < job.Chunks() && !Finished(job, s, k) {
      assert WorkerInv(job, s, k);
      ChunksTile(job, s.next[k]);
      assert job.Own(s.next[k]) == k;
    }
  }

  lemma StepOther<T, U, E>(job: Job<T, U, E>, s: State<U, E>, k: nat, j: nat)
    requires Inv(job, s) && j < job.Chunks() && j != k
    ensures WorkerInv(job, Step(job, s, k), j)
  {
    assert WorkerInv(job, s, j);
    forall i | job.Lo(j) <= i < job.Hi(j)
      ensures Step(job, s, k).slots[i] == s.slots[i]
    {
      ChunksTile(job, i);
      StepOwnsSlot(job, s, k, i);
    }
  }

  lemma StepInv<T, U, E>(job: Job<T, U, E>, s: State<U, E>, k: nat)
    requires Inv(job, s)
    ensures Inv(job, Step(job, s, k))
  {
    forall j | 0 <= j < job.Chunks()
      ensures WorkerInv(job, Step(job, s, k), j)
    {
      assert WorkerInv(job, s, j);
      if j != k {
        StepOther(job, s, k, j);
      }
    }
  }

  lemma {:induction false} RunInv<T, U, E>(job: Job<T, U, E>, schedule: seq<nat>)
    requires job.Valid()
    ensures Inv(job, Run(job, schedule))
    decreases |schedule|
  {
    if schedule == [] {
      StartInv(job);
    } else {
      RunInv(job, schedule[..|schedule| - 1]);
      StepInv(job, Run(job, schedule[..|schedule| - 1]), schedule[|schedule| - 1]);
    }
  }

  // ---- the sequential outcome ----

  /** The first element whose call fails, from `i` on; the length if none does. */
  function FirstFailure<T, U, E>(job: Job<T, U, E>, i: nat): (r: nat)
    requires job.Valid() && i <= |job.input|
    ensures i <= r <= |job.input|
    ensures forall j :: i <= j < r ==> job.At(j).error.None?
    ensures r < |job.input| ==> job.At(r).error.Some?
    decreases |job.input| - i
  {
    if i == |job.input| || job.At(i).error.Some? then i else FirstFailure(job, i + 1)
  }

  lemma FirstFailureAt<T, U, E>(job: Job<T, U, E>, i: nat)
    requires job.Valid() && i <= |job.input|
    requires forall j :: 0 <= j < i ==> job.At(j).error.None?
    requires i < |job.input| ==> job.At(i).error.Some?
    ensures FirstFailure(job, 0) == i
  {}

  function SequentialResult<T, U, E>(job: Job<T, U, E>): MapResult<E>
    requires job.Valid()
  {
    var i := FirstFailure(job, 0);
    if i < |job.input| then Worker(job.At(i).error.value) else Mapped
  }

  /** What joining the workers in spawn order reports. */
  function FirstError<E>(failed: seq<Option<E>>): Option<E> {
    if failed == [] then None
    else if failed[0].Some? then failed[0]
    else FirstError(failed[1..])
  }

  lemma {:induction false} FirstErrorAt<E>(failed: seq<Option<E>>) returns (k: nat)
    ensures k <= |failed| && forall j :: 0 <= j < k ==> failed[j].None?
    ensures k < |failed| ==> failed[k].Some?
    ensures FirstError(failed) == if k < |failed| then failed[k] else None
  {
    if failed == [] || failed[0].Some? {
      k := 0;
    } else {
      var i := FirstErrorAt(failed[1..]);
      assert forall j :: 1 <= j < i + 1 ==> failed[j] == failed[1..][j - 1];
      k := i + 1;
    }
  }

  function Joined<E>(failed: seq<Option<E>>): MapResult<E> {
    var error := FirstError(failed);
    if error.Some? then Worker(error.value) else Mapped
  }

  ghost predicate AllFinished<T, U, E>(job: Job<T, U, E>, s: State<U, E>)
    requires Shaped(job, s)
  {
    forall k :: 0 <= k < job.Chunks() ==> Finished(job, s, k)
  }

  /** Once every worker is done, the joined result is the sequential one. */
  lemma JoinedIsSequential<T, U, E>(job: Job<T, U, E>, s: State<U, E>)
    requires Inv(job, s) && AllFinished(job, s)
    ensures Joined(s.failed) == SequentialResult(job)
    ensures Joined(s.failed).Mapped? ==> forall i :: 0 <= i < |job.input| ==> s.slots[i] == job.At(i).slot
  {
    var k := FirstErrorAt(s.failed);
    forall i | 0 <= i < |job.input| && job.Own(i) < k
      ensures job.At(i).error.None? && s.slots[i] == job.At(i).slot
    {
      ChunksTile(job, i);
      assert WorkerInv(job, s, job.Own(i)) && Finished(job, s, job.Own(i));
      assert job.Lo(job.Own(i)) <= i < s.next[job.Own(i)];
    }
    if k < job.Chunks() {
      LowestFailure(job, s, k);
    } else {
      forall i | 0 <= i < |job.input|
        ensures job.Own(i) < k
      {
        ChunksTile(job, i);
      }
      FirstFailureAt(job, |job.input|);
    }
  }

  lemma LowestFailure<T, U, E>(job: Job<T, U, E>, s: State<U, E>, k: nat)
    requires Inv(job, s) && AllFinished(job, s) && k < job.Chunks() && s.failed[k].Some?
    requires forall i :: 0 <= i < |job.input| && job.Own(i) < k ==> job.At(i).error.None?
    ensures SequentialResult(job) == Worker(s.failed[k].value)
  {
    assert WorkerInv(job, s, k);
    var worst := s.next[k] - 1;
    forall i | 0 <= i < worst
      ensures job.At(i).error.None?
    {
      ChunksTile(job, i);
      if job.Own(i) >= k {
        LoOrder(job, k, job.Own(i));
        assert job.Lo(k) <= i;
      }
    }
    FirstFailureAt(job, worst);
  }

  /** Every complete schedule gives the sequential result: all slots mapped, or the error of
      the lowest failing element. */
  lemma ScheduleIndependent<T, U, E>(job: Job<T, U, E>, schedule: seq<nat>)
    requires job.Valid() && AllFinished(job, Run(job, schedule))
    ensures Joined(Run(job, schedule).failed) == SequentialResult(job)
    ensures SequentialResult(job).Mapped? ==>
      forall i :: 0 <= i < |job.input| ==> Run(job, schedule).slots[i] == job.At(i).slot
  {
    RunInv(job, schedule);
    JoinedIsSequential(job, Run(job, schedule));
  }

  // ---- the function itself ----

  /** Slots still to be tried. */
  function Pending<T, U, E>(job: Job<T, U, E>, s: State<U, E>): set<nat>
    requires Shaped(job, s)
  {
    set i: nat | i < |job.input| && job.Own(i) < |s.next| && s.next[job.Own(i)] <= i
  }

  lemma StepShrinks<T, U, E>(job: Job<T, U, E>, s: State<U, E>, k: nat)
    requires Inv(job, s) && k < job.Chunks() && !Finished(job, s, k)
    ensures Pending(job, Step(job, s, k)) < Pending(job, s)
  {
    assert WorkerInv(job, s, k);
    var i, s' := s.next[k], Step(job, s, k);
    ChunksTile(job, i);
    assert i in Pending(job, s);
    assert forall j :: j in Pending(job, s') ==> j in Pending(job, s) && j != i;
  }

  /** Join in spawn order; the first error wins. */
  method Join<E>(failed: seq<Option<E>>) returns (failure: Option<E>)
    ensures failure == FirstError(failed)
  {
    failure := None;
    for k := 0 to |failed|
      invariant FirstError(failed) == if failure.Some? then failure else FirstError(failed[k..])
    {
      if failed[k].Some? && failure.None? {
        failure := failed[k];
      }
    }
  }

  /** One worker: a plain loop that stops at the first error. */
  method MapAlone<T, U, E>(input: seq<T>, output: array<U>, f: (T, U) -> Applied<U, E>) returns (r: MapResult<E>)
    requires |input| == output.Length
    modifies output
    ensures var job := Job(input, old(output[..]), f, 1);
      && r == SequentialResult(job)
      && forall i :: 0 <= i < |input| ==>
           output[i] == if i <= FirstFailure(job, 0) then job.At(i).slot else old(output[i])
  {
    ghost var job := Job(input, output[..], f, 1);
    for i := 0 to |input|
      invariant forall j :: 0 <= j < i ==> job.At(j).error.None? && output[j] == job.At(j).slot
      invariant forall j :: i <= j < |input| ==> output[j] == job.before[j]
    {
      var a := f(input[i], output[i]);
      output[i] := a.slot;
      if a.error.Some? {
        FirstFailureAt(job, i);
        return Worker(a.error.value);
      }
    }
    FirstFailureAt(job, |input|);
    r := Mapped;
  }

  /** The threads, scheduled in any order until all are done, then joined. */
  method MapThreads<T, U, E>(input: seq<T>, output: array<U>, size: nat, f: (T, U) -> Applied<U, E>)
    returns (r: MapResult<E>)
    requires |input| == output.Length && size > 0
    modifies output
    ensures var job := Job(input, old(output[..]), f, size);
      && r == SequentialResult(job)
      && (r.Mapped? ==> forall i :: 0 <= i < |input| ==> output[i] == job.At(i).slot)
      && forall i :: 0 <= i < |input| ==> output[i] == job.At(i).slot || output[i] == old(output[i])
  {
    ghost var job := Job(input, output[..], f, size);
    var workers := DivCeil(|input|, size);
    var next: seq<nat> := seq(workers, (k: nat) => k * size);
    var failed: seq<Option<E>> := seq(workers, (k: nat) => None);
    ghost var s := Start(job);
    StartInv(job);
    while exists k :: 0 <= k < workers && failed[k].None? &&
                      next[k] < (if (k + 1) * size < |input| then (k + 1) * size else |input|)
      invariant Inv(job, s) && s == State(output[..], next, failed) && workers == job.Chunks()
      decreases Pending(job, s)
    {
      var k :| 0 <= k < workers && failed[k].None? &&
               next[k] < (if (k + 1) * size < |input| then (k + 1) * size else |input|);
      assert WorkerInv(job, s, k) && !Finished(job, s, k);
      var i := next[k];
      var a := f(input[i], output[i]);
      output[i] := a.slot;
      next, failed := next[k := i + 1], failed[k := a.error];
      StepShrinks(job, s, k);
      StepInv(job, s, k);
      s := Step(job, s, k);
    }
    var failure := Join(failed);
    JoinedIsSequential(job, s);
    forall i | 0 <= i < |input|
      ensures output[i] == job.At(i).slot || output[i] == old(output[i])
    {
      ChunksTile(job, i);
      assert WorkerInv(job, s, i / size);
    }
    r := if failure.Some? then Worker(failure.value) else Mapped;
  }

  /** The sequential result whatever the number of workers and however they interleave. */
  method ParallelMap<T, U, E>(input: seq<T>, output: array<U>, workers: nat, f: (T, U) -> Applied<U, E>)
    returns (r: MapResult<E>)
    modifies output
    ensures workers == 0 ==> r == InvalidWorkerCount && output[..] == old(output[..])
    ensures workers > 0 && |input| != output.Length ==>
      r == LengthMismatch(|input|, output.Length) && output[..] == old(output[..])
    ensures workers > 0 && |input| == output.Length ==>
      var job := Job(input, old(output[..]), f, 1);
      && r == SequentialResult(job)
      && (r.Mapped? ==> forall i :: 0 <= i < |input| ==> output[i] == job.At(i).slot)
      && forall i :: 0 <= i < |input| ==> output[i] == job.At(i).slot || output[i] == old(output[i])
  {
    if workers == 0 { return InvalidWorkerCount; }
    if |input| != output.Length { return LengthMismatch(|input|, output.Length); }
    ghost var job := Job(input, output[..], f, 1);
    if |input| == 0 {
      return Mapped;
    }
    var count := if workers < |input| then workers else |input|;
    var size := DivCeil(|input|, count);
    WorkersBounded(|input|, count);
    if count == 1 {
      r := MapAlone(input, output, f);
      return;
    }
    SizeIrrelevant(job, size);
    r := MapThreads(input, output, size, f);
  }

  lemma {:induction false} SizeIrrelevant<T, U, E>(job: Job<T, U, E>, size: nat)
    requires job.Valid() && size > 0
    ensures SequentialResult(job.(size := size)) == SequentialResult(job)
    ensures forall i :: 0 <= i < |job.input| ==> job.(size := size).At(i) == job.At(i)
  {
    assert forall i :: 0 <= i < |job.input| ==> job.(size := size).At(i) == job.At(i);
    FirstFailureAt(job.(size := size), FirstFailure(job, 0));
  }
}
