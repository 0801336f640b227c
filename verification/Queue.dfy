/**
 The completion queue: one mutex and condition variable shared by any number of pollers, and the
 slab each poller copies a batch into.

 `State` is what the mutex guards. The critical sections are functions on it; `World` adds the
 pollers and lets every lock-sized step interleave with every other.
 */
module Queue {
  import opened Bridge

  datatype State = State(queue: seq<Pending>, wakes: nat, closed: bool)

  function Push(s: State, p: Pending): State {
    if s.closed then s else s.(queue := s.queue + [p])
  }

  function Close(s: State): State {
    s.(closed := true)
  }

  function Wake(s: State): State {
    s.(wakes := s.wakes + 1)
  }

  /** One trip round poll's wait loop with the lock held: either park, or leave with a batch. */
  datatype Trip = Park | Leave(after: State, drained: seq<Pending>, closed: bool)

  function Drain(s: State, cap: nat): Trip {
    var take := Min(cap, |s.queue|);
    Leave(s.(queue := s.queue[take..]), s.queue[..take], s.closed)
  }

  /** `timedOut` says that the wait before this trip ended at its deadline: such a trip never re-checks. */
  function Round(s: State, cap: nat, timeoutMillis: int, timedOut: bool): Trip {
    if timedOut || s.queue != [] || s.closed then Drain(s, cap)
    else if s.wakes > 0 then Drain(s.(wakes := s.wakes - 1), cap)
    else if timeoutMillis == 0 then Drain(s, cap)
    else Park
  }

  /** What a wait on the condition variable ends in: the state others left behind, and whether the deadline passed. */
  datatype Wakeup = Wakeup(state: State, timedOut: bool)

  /** The whole wait loop, given what its successive waits end in; `Park` if it outlasts them. */
  function Waits(s: State, cap: nat, timeoutMillis: int, timedOut: bool, wakeups: seq<Wakeup>): Trip
    decreases |wakeups|
  {
    var trip := Round(s, cap, timeoutMillis, timedOut);
    if trip.Leave? || wakeups == [] then trip
    else Waits(wakeups[0].state, cap, timeoutMillis, wakeups[0].timedOut, wakeups[1..])
  }

  /** A wait that spuriously wakes into an idle state changes nothing: only the state and the deadline decide. */
  lemma {:induction false} SpuriousWakeupsDoNotMatter(
      s: State, cap: nat, timeoutMillis: int, idle: seq<Wakeup>, rest: seq<Wakeup>)
    requires timeoutMillis != 0 && s.queue == [] && !s.closed && s.wakes == 0
    requires forall k :: 0 <= k < |idle| ==>
      !idle[k].timedOut && idle[k].state.queue == [] && !idle[k].state.closed && idle[k].state.wakes == 0
    ensures rest != [] ==>
      Waits(s, cap, timeoutMillis, false, idle + rest)
      == Waits(rest[0].state, cap, timeoutMillis, rest[0].timedOut, rest[1..])
    ensures rest == [] ==> Waits(s, cap, timeoutMillis, false, idle + rest) == Park
    decreases |idle|
  {
    if idle == [] {
      assert idle + rest == rest;
    } else {
      assert (idle + rest)[0] == idle[0] && (idle + rest)[1..] == idle[1..] + rest;
      SpuriousWakeupsDoNotMatter(idle[0].state, cap, timeoutMillis, idle[1..], rest);
    }
  }

  /** The `n`-th trip round the loop, should it get that far. */
  function TripAt(s: State, cap: nat, timeoutMillis: int, timedOut: bool, wakeups: seq<Wakeup>, n: nat): Trip
    requires n <= |wakeups|
  {
    if n == 0 then Round(s, cap, timeoutMillis, timedOut)
    else Round(wakeups[n - 1].state, cap, timeoutMillis, wakeups[n - 1].timedOut)
  }

  /** The wait ends with the first trip that leaves, and not before. */
  lemma {:induction false} WaitsEndWithTheFirstLeave(
      s: State, cap: nat, timeoutMillis: int, timedOut: bool, wakeups: seq<Wakeup>, n: nat)
    requires n <= |wakeups| && forall k :: 0 <= k < n ==> TripAt(s, cap, timeoutMillis, timedOut, wakeups, k) == Park
    ensures var last := TripAt(s, cap, timeoutMillis, timedOut, wakeups, n);
            last.Leave? || n == |wakeups| ==> Waits(s, cap, timeoutMillis, timedOut, wakeups) == last
    decreases |wakeups|
  {
    if n > 0 {
      var first, rest := wakeups[0], wakeups[1..];
      assert TripAt(s, cap, timeoutMillis, timedOut, wakeups, 0) == Park;
      forall k | 0 <= k < n
        ensures TripAt(first.state, cap, timeoutMillis, first.timedOut, rest, k)
             == TripAt(s, cap, timeoutMillis, timedOut, wakeups, k + 1)
      {
        assert k > 0 ==> rest[k - 1] == wakeups[k];
      }
      WaitsEndWithTheFirstLeave(first.state, cap, timeoutMillis, first.timedOut, rest, n - 1);
    }
  }

  datatype PollResult = Count(n: nat) | ReportShutdown

  function ResultOf(drained: seq<Pending>, closed: bool): PollResult {
    if drained != [] then Count(|drained|) else if closed then ReportShutdown else Count(0)
  }

  // ---------------------------------------------------------------------------------------------
  // All pollers, all interleavings

  /** `Idle` is `in_poll == false`. `Writing` has left the lock and copies its batch out. */
  datatype Phase =
    | Idle
    | Entered
    | Parked
    | Woken(timedOut: bool)
    | Writing(batch: seq<Pending>, closed: bool)

  datatype Poller = Poller(phase: Phase, cap: nat, timeoutMillis: int)

  /**
   The last four fields are history: what happened, not what the code stores. `released` counts the polls
   that came back empty-handed for no other reason than a wake.
   */
  datatype World = World(
    state: State,
    pollers: map<nat, Poller>,
    accepted: seq<Pending>,
    batches: seq<seq<Pending>>,
    issued: nat,
    released: nat)

  datatype Step =
    | DoPush(p: Pending)
    | DoClose
    | DoWake
    | NewPoller(i: nat)
    | Enter(i: nat, cap: nat, timeoutMillis: int)
    | Lock(i: nat)
    | TimeoutFires(i: nat)
    | SpuriousWake(i: nat)
    | Finish(i: nat)

  function Notify(p: Poller): Poller {
    if p.phase == Parked then p.(phase := Woken(false)) else p
  }

  /** `notify_all`: the signal reaches exactly the pollers parked at this moment and is not sticky. */
  function NotifyAll(pollers: map<nat, Poller>): map<nat, Poller> {
    map i | i in pollers :: Notify(pollers[i])
  }

  predicate Enabled(w: World, step: Step) {
    match step
    case NewPoller(i) => i !in w.pollers
    case Enter(i, cap, _) => i in w.pollers && w.pollers[i].phase == Idle && cap > 0
    case Lock(i) => i in w.pollers && (w.pollers[i].phase == Entered || w.pollers[i].phase.Woken?)
    case TimeoutFires(i) => i in w.pollers && w.pollers[i].phase == Parked && w.pollers[i].timeoutMillis > 0
    case SpuriousWake(i) => i in w.pollers && w.pollers[i].phase == Parked
    case Finish(i) => i in w.pollers && w.pollers[i].phase.Writing?
    case _ => true
  }

  function InPhase(w: World, i: nat, phase: Phase): World
    requires i in w.pollers
  {
    w.(pollers := w.pollers[i := w.pollers[i].(phase := phase)])
  }

  /** A poll that leaves an open queue with nothing before its deadline, and was not just looking. */
  predicate CameForAWake(p: Poller, before: State, drained: seq<Pending>, closed: bool) {
    drained == [] && !closed && p.phase != Woken(true) && (p.timeoutMillis != 0 || before.wakes > 0)
  }

  /** Locking, checking and either parking or draining is one step: the condition variable releases the lock as it parks. */
  function LockStep(w: World, i: nat): World
    requires Enabled(w, Lock(i))
  {
    var p := w.pollers[i];
    match Round(w.state, p.cap, p.timeoutMillis, p.phase == Woken(true))
    case Park => InPhase(w, i, Parked)
    case Leave(after, drained, closed) =>
      InPhase(w, i, Writing(drained, closed)).(
        state := after,
        batches := w.batches + [drained],
        released := w.released + if CameForAWake(p, w.state, drained, closed) then 1 else 0)
  }

  function Do(w: World, step: Step): World
    requires Enabled(w, step)
  {
    match step
    case DoPush(p) =>
      if w.state.closed then w
      else w.(state := Push(w.state, p), pollers := NotifyAll(w.pollers), accepted := w.accepted + [p])
    case DoClose => w.(state := Close(w.state), pollers := NotifyAll(w.pollers))
    case DoWake => w.(state := Wake(w.state), pollers := NotifyAll(w.pollers), issued := w.issued + 1)
    case NewPoller(i) => w.(pollers := w.pollers[i := Poller(Idle, 0, 0)])
    case Enter(i, cap, timeoutMillis) => w.(pollers := w.pollers[i := Poller(Entered, cap, timeoutMillis)])
    case Lock(i) => LockStep(w, i)
    case TimeoutFires(i) => InPhase(w, i, Woken(true))
    case SpuriousWake(i) => InPhase(w, i, Woken(false))
    case Finish(i) => InPhase(w, i, Idle)
  }

  const NEW_WORLD: World := World(State([], 0, false), map[], [], [], 0, 0)

  ghost predicate Linked(run: seq<World>, steps: seq<Step>, k: nat)
    requires k < |steps| && |run| == |steps| + 1
  {
    Enabled(run[k], steps[k]) && run[k + 1] == Do(run[k], steps[k])
  }

  ghost predicate IsRun(run: seq<World>, steps: seq<Step>) {
    |run| == |steps| + 1 && run[0] == NEW_WORLD && forall k: nat :: k < |steps| ==> Linked(run, steps, k)
  }

  function Flatten(batches: seq<seq<Pending>>): seq<Pending> {
    if batches == [] then [] else Flatten(batches[..|batches| - 1]) + batches[|batches| - 1]
  }

  // ---------------------------------------------------------------------------------------------
  // What every reachable world satisfies

  /** No lost wakeup: whoever is parked and not yet notified has nothing to do. */
  ghost predicate NoLostWakeup(w: World) {
    forall i :: i in w.pollers && w.pollers[i].phase == Parked ==>
      w.state.queue == [] && !w.state.closed && w.state.wakes == 0
  }

  /** Accepted completions are the drained batches in drain order, then the queue; each wake releases one poll. */
  ghost predicate Conserved(w: World) {
    w.accepted == Flatten(w.batches) + w.state.queue && w.issued == w.released + w.state.wakes
  }

  /** The queue is closed and everything it ever accepted has been handed to a poller. */
  ghost predicate Ended(w: World) {
    w.state.closed && w.state.queue == [] && w.accepted == Flatten(w.batches)
  }

  /** A poll about to report shutdown is right to. */
  ghost predicate ShutdownIsEarned(w: World) {
    forall i :: i in w.pollers && w.pollers[i].phase == Writing([], true) ==> Ended(w)
  }

  ghost predicate CapsPositive(w: World) {
    forall i :: i in w.pollers && w.pollers[i].phase != Idle ==> w.pollers[i].cap > 0
  }

  ghost predicate Inv(w: World) {
    NoLostWakeup(w) && Conserved(w) && ShutdownIsEarned(w) && CapsPositive(w)
  }

  lemma FlattenExtends(batches: seq<seq<Pending>>, last: seq<Pending>)
    ensures Flatten(batches + [last]) == Flatten(batches) + last
  {
    assert (batches + [last])[..|batches|] == batches;
  }

  /**
   A trip takes the first min(cap, length) completions and parks only with nothing to do. It takes one wake
   if that is its only reason to leave, and none otherwise.
   */
  lemma RoundFacts(s: State, cap: nat, timeoutMillis: int, timedOut: bool)
    requires cap > 0
    ensures match Round(s, cap, timeoutMillis, timedOut)
            case Park => s.queue == [] && !s.closed && s.wakes == 0 && timeoutMillis != 0 && !timedOut
            case Leave(after, drained, closed) =>
              && s.queue == drained + after.queue && |drained| == Min(cap, |s.queue|)
              && after.closed == closed == s.closed
              && after.wakes == s.wakes - (if s.queue == [] && !s.closed && !timedOut && s.wakes > 0 then 1 else 0)
              && (drained == [] ==> s.queue == [])
  {
  }

  lemma DrainConserves(accepted: seq<Pending>, batches: seq<seq<Pending>>, before: seq<Pending>, drained: seq<Pending>, after: seq<Pending>)
    requires accepted == Flatten(batches) + before && before == drained + after
    ensures accepted == Flatten(batches + [drained]) + after
    ensures after == [] ==> accepted == Flatten(batches + [drained])
  {
    FlattenExtends(batches, drained);
    assert accepted == (Flatten(batches) + drained) + after;
    assert after == [] ==> Flatten(batches + [drained]) + after == Flatten(batches + [drained]);
  }

  lemma LockKeepsNoLostWakeup(w: World, i: nat)
    requires NoLostWakeup(w) && CapsPositive(w) && Enabled(w, Lock(i))
    ensures NoLostWakeup(LockStep(w, i)) && CapsPositive(LockStep(w, i))
  {
    var p := w.pollers[i];
    RoundFacts(w.state, p.cap, p.timeoutMillis, p.phase == Woken(true));
  }

  lemma LockConserves(w: World, i: nat)
    requires Conserved(w) && Enabled(w, Lock(i)) && w.pollers[i].cap > 0
    ensures Conserved(LockStep(w, i))
    ensures Ended(w) || LockStep(w, i).pollers[i].phase == Writing([], true) ==> Ended(LockStep(w, i))
  {
    var p := w.pollers[i];
    var timedOut := p.phase == Woken(true);
    RoundFacts(w.state, p.cap, p.timeoutMillis, timedOut);
    var trip := Round(w.state, p.cap, p.timeoutMillis, timedOut);
    if trip.Leave? {
      DrainConserves(w.accepted, w.batches, w.state.queue, trip.drained, trip.after.queue);
    }
  }

  /** Only the poller that locked changes phase. */
  lemma LockMovesOne(w: World, i: nat)
    requires Enabled(w, Lock(i))
    ensures i in LockStep(w, i).pollers
    ensures forall j :: j != i ==> (j in LockStep(w, i).pollers <==> j in w.pollers)
    ensures forall j :: j != i && j in w.pollers ==> LockStep(w, i).pollers[j] == w.pollers[j]
  {
  }

  lemma LockKeepsEarned(w: World, i: nat)
    requires ShutdownIsEarned(w) && Conserved(w) && Enabled(w, Lock(i)) && w.pollers[i].cap > 0
    ensures ShutdownIsEarned(LockStep(w, i))
  {
    LockConserves(w, i);
    LockMovesOne(w, i);
  }

  lemma LockKeepsInv(w: World, i: nat)
    requires Inv(w) && Enabled(w, Lock(i))
    ensures Inv(LockStep(w, i))
  {
    LockKeepsEarned(w, i);
    LockKeepsNoLostWakeup(w, i);
    LockConserves(w, i);
  }

  lemma StepKeepsInv(w: World, step: Step)
    requires Inv(w) && Enabled(w, step)
    ensures Inv(Do(w, step))
  {
    match step
    case DoPush(p) =>
      assert w.accepted + [p] == Flatten(w.batches) + (w.state.queue + [p]);
    case Lock(i) => LockKeepsInv(w, i);
    case _ =>
  }

  lemma StartIsSafe()
    ensures Inv(NEW_WORLD)
  {
  }

  lemma RunStepKeepsInv(run: seq<World>, steps: seq<Step>, k: nat)
    requires IsRun(run, steps) && k < |steps| && Inv(run[k])
    ensures Inv(run[k + 1])
  {
    assert Linked(run, steps, k);
    StepKeepsInv(run[k], steps[k]);
  }

  /** Every reachable world, with any number of pollers, pushers and wakers. */
  lemma {:induction false} RunsAreSafe(run: seq<World>, steps: seq<Step>, k: nat)
    requires IsRun(run, steps) && k < |run|
    ensures NoLostWakeup(run[k]) && Conserved(run[k]) && ShutdownIsEarned(run[k]) && CapsPositive(run[k])
  {
    if k == 0 {
      StartIsSafe();
    } else {
      RunsAreSafe(run, steps, k - 1);
      RunStepKeepsInv(run, steps, k - 1);
    }
  }

  /** Once ended, always ended: nothing more is accepted, nobody parks, and every poll that locks reports shutdown. */
  lemma EndIsForever(w: World, step: Step)
    requires Inv(w) && Ended(w) && Enabled(w, step)
    ensures Ended(Do(w, step)) && Do(w, step).accepted == w.accepted
    ensures step.Lock? ==>
      && Do(w, step).pollers[step.i].phase == Writing([], true) && ResultOf([], true) == ReportShutdown
  {
    if step.Lock? {
      LockKeepsInv(w, step.i);
      FlattenExtends(w.batches, []);
    }
  }

  lemma {:induction false} EndedRunsStayEnded(run: seq<World>, steps: seq<Step>, at: nat, k: nat)
    requires IsRun(run, steps) && at <= k < |run| && Ended(run[at])
    ensures Ended(run[k]) && run[k].accepted == run[at].accepted
    decreases k
  {
    if at < k {
      EndedRunsStayEnded(run, steps, at, k - 1);
      RunsAreSafe(run, steps, k - 1);
      assert Linked(run, steps, k - 1);
      EndIsForever(run[k - 1], steps[k - 1]);
    }
  }

  /**
   When some poll of a run reports shutdown, every accepted completion had been drained by then, and
   from there on every poll that reaches the lock reports shutdown too.
   */
  lemma ShutdownIsFinal(run: seq<World>, steps: seq<Step>, at: nat, i: nat, k: nat)
    requires IsRun(run, steps) && at <= k < |steps|
    requires i in run[at].pollers && run[at].pollers[i].phase == Writing([], true)
    ensures Ended(run[k]) && run[k].accepted == run[at].accepted
    ensures steps[k].Lock? ==>
      steps[k].i in run[k + 1].pollers && run[k + 1].pollers[steps[k].i].phase == Writing([], true)
  {
    RunsAreSafe(run, steps, at);
    EndedRunsStayEnded(run, steps, at, k);
    RunsAreSafe(run, steps, k);
    assert Linked(run, steps, k);
    EndIsForever(run[k], steps[k]);
  }

  /**
   What a poll of any run reports: how many completions it drained; shutdown only with nothing drained and
   nothing ever to come; and none without shutdown only from an open queue.
   */
  lemma ResultsAreTrue(run: seq<World>, steps: seq<Step>, k: nat, i: nat)
    requires IsRun(run, steps) && k < |run| && i in run[k].pollers && run[k].pollers[i].phase.Writing?
    ensures var phase := run[k].pollers[i].phase;
            match ResultOf(phase.batch, phase.closed)
            case Count(n) => n == |phase.batch| && (n == 0 ==> !phase.closed)
            case ReportShutdown => phase.batch == [] && Ended(run[k])
  {
    RunsAreSafe(run, steps, k);
  }

  /**
   A poller that parked is released by the next push, close or wake, whichever comes first, and then leaves;
   a spurious wakeup only makes it look again.
   */
  lemma EveryEventReleasesParked(w: World, step: Step, i: nat)
    requires Inv(w) && i in w.pollers && w.pollers[i].phase == Parked
    requires step.DoPush? || step.DoClose? || step.DoWake? || step == SpuriousWake(i)
    ensures Do(w, step).pollers[i].phase == Woken(false)
    ensures Round(Do(w, step).state, w.pollers[i].cap, w.pollers[i].timeoutMillis, false) != Park
            <==> step != SpuriousWake(i) || w.pollers[i].timeoutMillis == 0
  {
  }

  // ---------------------------------------------------------------------------------------------
  // A poll gets somewhere

  /** The most steps a poll still takes by itself before it returns or is woken. */
  function StepsLeft(phase: Phase): nat {
    match phase
    case Entered | Woken(_) => 3
    case Parked => 2
    case Writing(_, _) => 1
    case Idle => 0
  }

  predicate OwnStep(step: Step, i: nat) {
    step == Lock(i) || step == Finish(i)
  }

  /** Everything that ends a wait: the events, the deadline, and nothing at all. */
  predicate WakesUp(before: World, after: World, i: nat) {
    i in before.pollers && i in after.pollers && before.pollers[i].phase == Parked && after.pollers[i].phase.Woken?
  }

  predicate Enters(step: Step, i: nat) {
    step.Enter? && step.i == i
  }

  lemma PollMovesOn(w: World, step: Step, i: nat)
    requires Enabled(w, step)
    ensures var w' := Do(w, step);
            (if i in w'.pollers then StepsLeft(w'.pollers[i].phase) else 0) + (if OwnStep(step, i) then 1 else 0)
            <= (if i in w.pollers then StepsLeft(w.pollers[i].phase) else 0)
               + (if Enters(step, i) then 3 else 0) + (if WakesUp(w, w', i) then 1 else 0)
  {
    if step.Lock? && step.i != i { LockMovesOne(w, step.i); }
  }

  ghost function OwnSteps(steps: seq<Step>, i: nat): nat {
    if steps == [] then 0 else OwnSteps(steps[..|steps| - 1], i) + if OwnStep(steps[|steps| - 1], i) then 1 else 0
  }

  ghost function Entries(steps: seq<Step>, i: nat): nat {
    if steps == [] then 0 else Entries(steps[..|steps| - 1], i) + if Enters(steps[|steps| - 1], i) then 1 else 0
  }

  ghost function Wakings(run: seq<World>, k: nat, i: nat): nat
    requires k < |run|
  {
    if k == 0 then 0 else Wakings(run, k - 1, i) + if WakesUp(run[k - 1], run[k], i) then 1 else 0
  }

  /** No poll spins: three steps for each call, and one more trip for each time it was woken. */
  lemma {:induction false} PollsAreBounded(run: seq<World>, steps: seq<Step>, k: nat, i: nat)
    requires IsRun(run, steps) && k < |run|
    ensures OwnSteps(steps[..k], i) + (if i in run[k].pollers then StepsLeft(run[k].pollers[i].phase) else 0)
         <= 3 * Entries(steps[..k], i) + Wakings(run, k, i)
  {
    if k > 0 {
      PollsAreBounded(run, steps, k - 1, i);
      assert Linked(run, steps, k - 1);
      assert steps[..k][..k - 1] == steps[..k - 1];
      PollMovesOn(run[k - 1], steps[k - 1], i);
    }
  }

  lemma TimedOutStays(w: World, step: Step, i: nat)
    requires Enabled(w, step) && i in w.pollers && w.pollers[i].phase == Woken(true) && step != Lock(i)
    ensures i in Do(w, step).pollers && Do(w, step).pollers[i].phase == Woken(true)
  {
    if step.Lock? { LockMovesOne(w, step.i); }
  }

  /** Once its deadline has passed a poll returns from its next trip, whatever it finds. */
  lemma {:induction false} DeadlineEndsThePoll(run: seq<World>, steps: seq<Step>, j: nat, k: nat, i: nat)
    requires IsRun(run, steps) && j < k < |run| && steps[j] == TimeoutFires(i)
    requires forall m :: j < m < k - 1 ==> steps[m] != Lock(i)
    ensures i in run[k].pollers
    ensures if k - 1 > j && steps[k - 1] == Lock(i) then run[k].pollers[i].phase.Writing? else run[k].pollers[i].phase == Woken(true)
    decreases k
  {
    assert Linked(run, steps, k - 1);
    if j < k - 1 {
      DeadlineEndsThePoll(run, steps, j, k - 1, i);
      if steps[k - 1] != Lock(i) { TimedOutStays(run[k - 1], steps[k - 1], i); }
    }
  }

  lemma TimesOutByItsDeadline(w: World, step: Step, i: nat)
    requires Enabled(w, step) && i in Do(w, step).pollers && Do(w, step).pollers[i].phase == Woken(true)
    ensures step == TimeoutFires(i) || (i in w.pollers && w.pollers[i].phase == Woken(true))
  {
    if step.Lock? { LockMovesOne(w, step.i); }
  }

  lemma {:induction false} TimedOutHasFired(run: seq<World>, steps: seq<Step>, k: nat, i: nat) returns (j: nat)
    requires IsRun(run, steps) && k < |run| && i in run[k].pollers && run[k].pollers[i].phase == Woken(true)
    ensures j < k && steps[j] == TimeoutFires(i)
    ensures forall m :: j < m <= k ==> i in run[m].pollers && run[m].pollers[i].phase == Woken(true)
  {
    assert Linked(run, steps, k - 1);
    TimesOutByItsDeadline(run[k - 1], steps[k - 1], i);
    if steps[k - 1] == TimeoutFires(i) {
      j := k - 1;
    } else {
      j := TimedOutHasFired(run, steps, k - 1, i);
    }
  }

  /** A poll comes back with nothing from an open queue only for a wake, at its deadline, or because it was just looking. */
  lemma NothingForAReason(run: seq<World>, steps: seq<Step>, k: nat, i: nat) returns (j: nat)
    requires IsRun(run, steps) && k < |steps| && steps[k] == Lock(i)
    requires i in run[k + 1].pollers && run[k + 1].pollers[i].phase == Writing([], false)
    ensures i in run[k].pollers
    ensures || run[k].pollers[i].timeoutMillis == 0
            || run[k].state.wakes == run[k + 1].state.wakes + 1
            || (j < k && steps[j] == TimeoutFires(i) && forall m :: j < m < k ==> steps[m] != Lock(i))
  {
    RunsAreSafe(run, steps, k);
    assert Linked(run, steps, k);
    j := 0;
    if run[k].pollers[i].phase == Woken(true) {
      j := TimedOutHasFired(run, steps, k, i);
      forall m | j < m < k ensures steps[m] != Lock(i) {
        assert Linked(run, steps, m) && run[m + 1].pollers[i].phase == Woken(true);
      }
    }
  }

  // ---------------------------------------------------------------------------------------------
  // Wakes

  function WokenTimes(s: State, n: nat): State {
    if n == 0 then s else Wake(WokenTimes(s, n - 1))
  }

  /** How a poll comes to the lock. */
  datatype Visit = Visit(cap: nat, timeoutMillis: int)

  /** What successive polls find, nothing else happening in between. */
  function Visits(s: State, visits: seq<Visit>): seq<Trip>
    decreases |visits|
  {
    if visits == [] then []
    else
      var trip := Round(s, visits[0].cap, visits[0].timeoutMillis, false);
      [trip] + Visits(if trip.Leave? then trip.after else s, visits[1..])
  }

  lemma WakesAddUp(s: State, n: nat)
    ensures WokenTimes(s, n) == s.(wakes := s.wakes + n)
  {
  }

  /** A state with `n` wakes and nothing else lets exactly `n` polls go; whoever comes next waits. */
  lemma {:induction false} StoredWakesRelease(s: State, visits: seq<Visit>)
    requires s.queue == [] && !s.closed
    requires forall k :: 0 <= k < |visits| ==> visits[k].cap > 0 && visits[k].timeoutMillis != 0
    ensures |Visits(s, visits)| == |visits|
    ensures forall k :: 0 <= k < |visits| ==>
      if k < s.wakes then Visits(s, visits)[k] == Leave(s.(wakes := s.wakes - k - 1), [], false)
      else Visits(s, visits)[k] == Park
    decreases |visits|
  {
    if visits != [] {
      var trip := Round(s, visits[0].cap, visits[0].timeoutMillis, false);
      var next := if trip.Leave? then trip.after else s;
      assert trip.Leave? ==> next == s.(wakes := s.wakes - 1);
      StoredWakesRelease(next, visits[1..]);
      assert Visits(s, visits) == [trip] + Visits(next, visits[1..]);
    }
  }

  /** `n` wakes into an idle queue release `n` polls and no more. */
  lemma WakesReleaseExactly(n: nat, visits: seq<Visit>, k: nat)
    requires k < |visits| && forall i :: 0 <= i < |visits| ==> visits[i].cap > 0 && visits[i].timeoutMillis != 0
    ensures var trips := Visits(WokenTimes(State([], 0, false), n), visits);
            |trips| == |visits| && (trips[k] == Park <==> k >= n)
            && (k < n ==> trips[k].Leave? && trips[k].drained == [] && !trips[k].closed)
  {
    WakesAddUp(State([], 0, false), n);
    StoredWakesRelease(WokenTimes(State([], 0, false), n), visits);
  }

  // ---------------------------------------------------------------------------------------------
  // The queue and the slab as the source updates them

  class CompletionQueue {
    var queue: seq<Pending>
    var wakes: nat
    var closed: bool

    function View(): State
      reads this
    {
      State(queue, wakes, closed)
    }

    constructor ()
      ensures View() == State([], 0, false)
    {
      queue, wakes, closed := [], 0, false;
    }

    /** A closed queue drops the completion; its handle, if any, is then the dropper's to release. */
    method PushBack(pending: Pending) returns (released: Option<nat>)
      modifies this
      ensures View() == Push(old(View()), pending)
      ensures released == if old(closed) then pending.Carried() else None
    {
      if closed {
        return pending.Carried();
      }
      queue := queue + [pending];
      released := None;
    }

    method Shut()
      modifies this`closed
      ensures View() == Close(old(View()))
    {
      closed := true;
    }

    method WakeUp()
      modifies this`wakes
      ensures View() == Wake(old(View()))
    {
      wakes := wakes + 1;
    }

    /** One trip round the wait loop; `parked` means the caller waits on the condition variable next. */
    method Attempt(cap: nat, timeoutMillis: int, timedOut: bool)
      returns (parked: bool, drained: seq<Pending>, wasClosed: bool)
      modifies this
      ensures parked <==> Round(old(View()), cap, timeoutMillis, timedOut) == Park
      ensures parked ==> View() == old(View())
      ensures !parked ==> Round(old(View()), cap, timeoutMillis, timedOut) == Leave(View(), drained, wasClosed)
      ensures !parked ==> old(queue) == drained + queue && (cap > 0 && queue != [] ==> |drained| == cap)
    {
      drained, wasClosed := [], closed;
      if !timedOut {
        if queue != [] || closed {
        } else if wakes > 0 {
          wakes := wakes - 1;
        } else if timeoutMillis != 0 {
          return true, [], closed;
        }
      }
      parked := false;
      var take := Min(cap, |queue|);
      drained := queue[..take];
      queue := queue[take..];
    }

    /** The wait loop: re-check after every wait, whatever ended it, unless the deadline did. */
    method Await(cap: nat, timeoutMillis: int, wakeups: seq<Wakeup>)
      returns (parked: bool, drained: seq<Pending>, wasClosed: bool)
      modifies this
      ensures Waits(old(View()), cap, timeoutMillis, false, wakeups)
           == if parked then Park else Leave(View(), drained, wasClosed)
    {
      var timedOut := false;
      var i := 0;
      parked, drained, wasClosed := Attempt(cap, timeoutMillis, timedOut);
      while parked && i < |wakeups|
        invariant i <= |wakeups|
        invariant Waits(old(View()), cap, timeoutMillis, false, wakeups)
               == if parked then Waits(View(), cap, timeoutMillis, timedOut, wakeups[i..]) else Leave(View(), drained, wasClosed)
        invariant parked ==> Round(View(), cap, timeoutMillis, timedOut) == Park
      {
        assert wakeups[i..][0] == wakeups[i] && wakeups[i..][1..] == wakeups[i + 1..];
        queue, wakes, closed := wakeups[i].state.queue, wakeups[i].state.wakes, wakeups[i].state.closed;
        timedOut := wakeups[i].timedOut;
        assert View() == wakeups[i].state;
        i := i + 1;
        parked, drained, wasClosed := Attempt(cap, timeoutMillis, timedOut);
      }
    }
  }

  /** What the caller finds in one output slot; `slab` is null when there is no payload. */
  datatype Completion = Completion(
    reqId: nat, kind: KtKind, status: int, slab: array?<byte>, offset: nat, len: nat, aux0: nat, aux1: nat)

  function TotalLen(ps: seq<Pending>): nat {
    if ps == [] then 0 else TotalLen(ps[..|ps| - 1]) + |ps[|ps| - 1].payload|
  }

  lemma {:induction false} PrefixFits(ps: seq<Pending>, k: nat)
    requires k <= |ps|
    ensures TotalLen(ps[..k]) <= TotalLen(ps)
    ensures k < |ps| ==> TotalLen(ps[..k + 1]) == TotalLen(ps[..k]) + |ps[k].payload|
  {
    if k < |ps| {
      assert ps[..k + 1][..k] == ps[..k];
      if k + 1 < |ps| {
        var shorter := ps[..|ps| - 1];
        assert shorter[..k] == ps[..k] && shorter[..k + 1] == ps[..k + 1];
        PrefixFits(shorter, k);
      } else {
        assert ps[..k + 1] == ps;
      }
    } else {
      assert ps[..k] == ps;
    }
  }

  lemma PrefixGrows(ps: seq<Pending>, k: nat)
    requires k < |ps|
    ensures ps[..k + 1] == ps[..k] + [ps[k]]
    ensures TotalLen(ps[..k + 1]) == TotalLen(ps[..k]) + |ps[k].payload| <= TotalLen(ps)
  {
    PrefixFits(ps, k);
    PrefixFits(ps, k + 1);
  }

  /** Rust's `next_power_of_two`, by doubling. */
  function DoubleUntil(n: nat, p: nat): (r: nat)
    requires 1 <= p && (p == 1 || p < 2 * n)
    ensures n <= r && (r == 1 || r < 2 * n)
    decreases if p < n then n - p else 0
  {
    if p >= n then p else DoubleUntil(n, 2 * p)
  }

  /** The first `k` completions no longer name a handle; nothing else about the batch has changed. */
  ghost predicate Disowned(left: seq<Pending>, drained: seq<Pending>, k: nat) {
    |left| == |drained| && forall j :: 0 <= j < |left| ==> left[j] == if j < k then drained[j].(aux0 := 0) else drained[j]
  }

  lemma DisownedCarryNothing(left: seq<Pending>, drained: seq<Pending>)
    requires Disowned(left, drained, |drained|)
    ensures forall k :: 0 <= k < |left| ==> left[k] == drained[k].(aux0 := 0) && left[k].Carried() == None
  {
  }

  /** A record says what its completion said, and its pointer and length denote the payload. */
  ghost predicate Denotes(r: Completion, p: Pending, slab: array<byte>, contents: seq<byte>) {
    && r.reqId == p.reqId && r.kind == p.kind && r.status == p.status && r.aux0 == p.aux0 && r.aux1 == p.aux1
    && r.len == |p.payload|
    && (p.payload == [] ==> r.slab == null && r.offset == 0)
    && (p.payload != [] ==>
          && r.slab == slab && r.offset + r.len <= |contents|
          && contents[r.offset..r.offset + r.len] == p.payload)
  }

  /** Every record denotes its completion, inside the used part of the slab, and ranges are disjoint. */
  ghost predicate Laid(records: seq<Completion>, ps: seq<Pending>, slab: array<byte>, contents: seq<byte>, used: nat) {
    && |records| == |ps|
    && (forall k :: 0 <= k < |records| ==> Denotes(records[k], ps[k], slab, contents))
    && (forall k :: 0 <= k < |records| ==> records[k].offset + records[k].len <= used)
    && (forall j, k :: 0 <= j < k < |records| && records[k].slab != null ==>
          records[j].offset + records[j].len <= records[k].offset)
  }

  lemma EarlierPayloadsSurvive(r: Completion, p: Pending, slab: array<byte>, before: seq<byte>, offset: nat, src: seq<byte>)
    requires Denotes(r, p, slab, before) && r.offset + r.len <= offset && offset + |src| <= |before|
    ensures Denotes(r, p, slab, before[..offset] + src + before[offset + |src|..])
  {
    var after := before[..offset] + src + before[offset + |src|..];
    assert p.payload != [] ==> after[r.offset..r.offset + r.len] == before[r.offset..r.offset + r.len];
  }

  lemma LaidExtends(
    records: seq<Completion>, ps: seq<Pending>, r: Completion, p: Pending,
    slab: array<byte>, before: seq<byte>, start: nat)
    requires Laid(records, ps, slab, before, start) && start + |p.payload| <= |before|
    requires r == Completion(p.reqId, p.kind, p.status, if p.payload == [] then null else slab,
                             if p.payload == [] then 0 else start, |p.payload|, p.aux0, p.aux1)
    ensures var after := before[..start] + p.payload + before[start + |p.payload|..];
            Laid(records + [r], ps + [p], slab, after, start + |p.payload|)
  {
    var after := before[..start] + p.payload + before[start + |p.payload|..];
    forall k | 0 <= k < |records| ensures Denotes(records[k], ps[k], slab, after) {
      EarlierPayloadsSurvive(records[k], ps[k], slab, before, start, p.payload);
    }
    assert after[start..start + |p.payload|] == p.payload;
    assert Denotes(r, p, slab, after);
  }

  class PollerEntry {
    const shared: CompletionQueue
    var bytes: array<byte>
    var used: nat
    var inPoll: bool

    ghost predicate Valid()
      reads this
    {
      used <= bytes.Length
    }

    constructor (shared: CompletionQueue)
      ensures Valid() && this.shared == shared && !inPoll && fresh(bytes)
    {
      this.shared := shared;
      bytes := new byte[0];
      used, inPoll := 0, false;
    }

    /** The checks before the lock. An overlapping poll is turned away with slab and flag untouched. */
    method EnterPoll(cap: nat, outIsNull: bool) returns (r: Option<Result<nat>>)
      modifies this`inPoll
      ensures r == None <==> cap > 0 && !outIsNull && !old(inPoll)
      ensures r != None ==> inPoll == old(inPoll) && r == Some(if cap == 0 then Ok(0) else Err(InvalidArgument))
      ensures r == None ==> inPoll
    {
      if cap == 0 {
        return Some(Ok(0));
      }
      if outIsNull {
        return Some(Err(InvalidArgument));
      }
      var was := inPoll;
      inPoll := true;
      if was {
        return Some(Err(InvalidArgument));
      }
      r := None;
    }

    method LeavePoll()
      modifies this`inPoll
      ensures !inPoll
    {
      inPoll := false;
    }

    /** Grows the slab once, before the first pointer of the batch is issued; it never shrinks. */
    method Reserve(total: nat)
      modifies this`bytes, this`used
      ensures Valid() && used == 0 && bytes.Length >= total && bytes.Length >= old(bytes.Length)
      ensures bytes == old(bytes) || fresh(bytes)
      ensures total <= old(bytes.Length) ==> bytes == old(bytes)
    {
      used := 0;
      if bytes.Length < total {
        bytes := new byte[Max(DoubleUntil(total, 1), 64 * 1024)](_ => 0);
      }
    }

    method Put(src: seq<byte>) returns (offset: nat)
      requires Valid() && used + |src| <= bytes.Length
      modifies this`used, bytes
      ensures Valid() && offset == old(used) && used == offset + |src|
      ensures bytes[..] == old(bytes[..offset]) + src + old(bytes[offset + |src|..])
    {
      offset := used;
      forall i | 0 <= i < |src| {
        bytes[offset + i] := src[i];
      }
      used := used + |src|;
    }

    /**
     The record-writing loop. Each record denotes exactly its own payload in the one slab all of them
     share, the ranges are disjoint and in order, and what is left of the batch owns no handle.
     */
    method WriteBatch(drained: seq<Pending>) returns (records: seq<Completion>, left: seq<Pending>)
      requires Valid() && drained != []
      modifies this`bytes, this`used, bytes
      ensures Valid() && |records| == |left| == |drained|
      ensures bytes == old(bytes) || fresh(bytes)
      ensures Laid(records, drained, bytes, bytes[..], used)
      ensures forall k :: 0 <= k < |left| ==> left[k] == drained[k].(aux0 := 0) && left[k].Carried() == None
    {
      Reserve(TotalLen(drained));
      records, left := [], drained;
      var k := 0;
      while k < |drained|
        invariant k <= |drained| && (bytes == old(bytes) || fresh(bytes))
        invariant Written(records, left, drained, k)
      {
        records, left := WriteNext(drained, k, records, left);
        k := k + 1;
      }
      assert drained[..k] == drained;
      DisownedCarryNothing(left, drained);
    }

    /** The first `k` completions of the batch have been written out and no longer own their handles. */
    ghost predicate Written(records: seq<Completion>, left: seq<Pending>, drained: seq<Pending>, k: nat)
      requires k <= |drained|
      reads this, bytes
    {
      && TotalLen(drained) <= bytes.Length && used == TotalLen(drained[..k]) <= bytes.Length
      && Laid(records, drained[..k], bytes, bytes[..], used) && Disowned(left, drained, k)
    }

    method WriteNext(drained: seq<Pending>, k: nat, records: seq<Completion>, left: seq<Pending>)
      returns (records': seq<Completion>, left': seq<Pending>)
      requires k < |drained| && Written(records, left, drained, k)
      modifies this`used, bytes
      ensures Written(records', left', drained, k + 1)
    {
      PrefixGrows(drained, k);
      var record := WriteRecord(drained[k], records, drained[..k]);
      records' := records + [record];
      left' := left[k := left[k].(aux0 := 0)];
    }

    /** One record: the payload goes to the next free range, an empty one gets the null pointer. */
    method WriteRecord(p: Pending, ghost records: seq<Completion>, ghost ps: seq<Pending>) returns (record: Completion)
      requires Valid() && used + |p.payload| <= bytes.Length && Laid(records, ps, bytes, bytes[..], used)
      modifies this`used, bytes
      ensures Valid() && used == old(used) + |p.payload| && Laid(records + [record], ps + [p], bytes, bytes[..], used)
    {
      ghost var before, start := bytes[..], used;
      var offset := 0;
      if p.payload != [] {
        offset := Put(p.payload);
      }
      var slab: array?<byte> := if p.payload == [] then null else bytes;
      record := Completion(p.reqId, p.kind, p.status, slab, offset, |p.payload|, p.aux0, p.aux1);
      LaidExtends(records, ps, record, p, bytes, before, start);
      assert bytes[..] == before[..start] + p.payload + before[start + |p.payload|..];
    }

    /**
     One whole poll: the checks, the wait loop, the batch and the flag. `None` is a poll that is still
     waiting after all of `wakeups`. A rejected poll changes nothing at all; a returned one leaves the
     flag down, and either an untouched slab or the whole drained batch laid out in it.
     */
    method Poll(cap: nat, outIsNull: bool, timeoutMillis: int, wakeups: seq<Wakeup>)
      returns (r: Option<Result<nat>>, records: seq<Completion>)
      requires Valid()
      modifies this`inPoll, this`bytes, this`used, bytes, shared
      ensures Valid()
      ensures cap == 0 || outIsNull || old(inPoll) ==>
        && r == Some(if cap == 0 then Ok(0) else Err(InvalidArgument)) && records == []
        && inPoll == old(inPoll) && bytes == old(bytes) && bytes[..] == old(bytes[..]) && used == old(used)
        && shared.View() == old(shared.View())
      ensures cap > 0 && !outIsNull && !old(inPoll) ==>
        match Waits(old(shared.View()), cap, timeoutMillis, false, wakeups)
        case Park => r == None && inPoll
        case Leave(after, drained, closed) =>
          && shared.View() == after && !inPoll
          && r == Some(if drained != [] then Ok(|drained|) else if closed then Err(Shutdown) else Ok(0))
          && (drained == [] ==> bytes == old(bytes) && bytes[..] == old(bytes[..]) && used == old(used))
          && (drained != [] ==> Laid(records, drained, bytes, bytes[..], used))
    {
      records := [];
      r := EnterPoll(cap, outIsNull);
      if r.Some? {
        return;
      }
      var parked, drained, closed := shared.Await(cap, timeoutMillis, wakeups);
      if parked {
        return;
      }
      if drained == [] {
        r := Some(if closed then Err(Shutdown) else Ok(0));
      } else {
        var left;
        records, left := WriteBatch(drained);
        r := Some(Ok(|drained|));
      }
      LeavePoll();
    }
  }
}
