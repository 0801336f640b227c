/**
 Worker lifecycle: start, concurrent graceful shutdowns, background finalizers and force-close, over
 one reference-counted Core worker.

 At most one shutdown or finalizer is inside `shutdown_lock`, so `World` gives it one slot, `holder`;
 everyone still outside that lock is only counted. The state lock is held across several steps by
 `start` and `free` and for single steps by everyone else.
 */
module Worker {
  import opened Bridge
  import Runs

  datatype WorkerState = Running(started: bool) | Draining | Finalized

  /** Everything that can hold a strong reference to the Core worker. */
  datatype Ref = StateRef | StartRef | FreeRef | HolderRef | PumpRef(k: nat) | CallRef(call: nat)

  /** `holds`: still owns its clone of the core. `counted`: its `Leaving` guard has not been dropped. */
  datatype Pump = Pump(spawned: bool, polled: bool, holds: bool, counted: bool, aborted: bool)

  datatype StateLock = Unlocked | ByStart(stored: bool, spawned: nat) | ByFree

  /**
   Where the owner of `shutdown_lock` is: before it looks at the state, between taking the core and
   knowing whether it was started, discarding a never-started worker, waiting for the pumps, past that
   wait, committed to finalizing, trying the unwrap, having just found another reference there, asleep
   before the next try, or awaiting Core.
   */
  datatype Holder =
    | Nobody
    | Entering(background: bool)
    | Initiated(started: bool)
    | Discarding
    | AwaitingPumps
    | PumpsGone
    | Committed
    | Unwrapping
    | Retrying
    | Sleeping
    | AwaitingCore

  /** `everStarted`, `freeTaken` and `finalizeCalls` are history. */
  datatype World = World(
    ws: WorkerState,
    stateLock: StateLock,
    holder: Holder,
    shutdownsQueued: nat,
    finalizersWaiting: nat,
    finalizersQueued: nat,
    refs: set<Ref>,
    pumps: seq<Pump>,
    live: int,
    everStarted: bool,
    freeTaken: bool,
    finalizeCalls: nat)

  datatype Step =
    | StartBegin
    | StartStore
    | StartSpawn
    | StartEnd
    | PumpPolled(k: nat)
    | PumpDropsCore(k: nat)
    | PumpLeaves(k: nat)
    | FreeTake
    | FreeDone
    | CallTakesCore(call: nat)
    | CallDropsCore(call: nat)
    | ShutdownCalled
    | ShutdownLocks
    | FinalizerSeesPumpsGone
    | FinalizerLocks
    | LookAtState
    | AfterInitiate
    | DropDiscarded
    | SeePumpsGone
    | GraceExpires
    | RecheckState
    | CommitFinalize
    | UnwrapSucceeds
    | UnwrapFails
    | Sleep
    | TryAgain
    | GiveUp
    | CoreFinished
    | HolderCancelled
    | QueuedCancelled

  predicate Enabled(w: World, step: Step) {
    match step
    case StartBegin => w.stateLock.Unlocked? && w.ws == Running(false)
    case StartStore => w.stateLock.ByStart? && !w.stateLock.stored
    case StartSpawn => w.stateLock.ByStart? && w.stateLock.stored && w.stateLock.spawned < |w.pumps|
    case StartEnd => w.stateLock.ByStart? && w.stateLock.stored && w.stateLock.spawned == |w.pumps|
    case PumpPolled(k) => k < |w.pumps| && w.pumps[k].holds
    case PumpDropsCore(k) => k < |w.pumps| && w.pumps[k].holds
    case PumpLeaves(k) =>
      k < |w.pumps| && w.pumps[k].counted && (!w.pumps[k].holds || (w.pumps[k].aborted && !w.pumps[k].polled))
    case FreeTake => w.stateLock.Unlocked?
    case FreeDone => w.stateLock.ByFree?
    case CallTakesCore(call) => w.stateLock.Unlocked? && !w.ws.Finalized? && CallRef(call) !in w.refs
    case CallDropsCore(call) => CallRef(call) in w.refs
    case ShutdownCalled => true
    case ShutdownLocks => w.holder.Nobody? && w.shutdownsQueued > 0
    case FinalizerSeesPumpsGone => w.finalizersWaiting > 0 && w.live == 0
    case FinalizerLocks => w.holder.Nobody? && w.finalizersQueued > 0
    case LookAtState => w.holder.Entering? && w.stateLock.Unlocked?
    case AfterInitiate => w.holder.Initiated? && (w.holder.started || w.stateLock.Unlocked?)
    case DropDiscarded => w.holder.Discarding?
    case SeePumpsGone => w.holder.AwaitingPumps? && w.live == 0
    case GraceExpires => w.holder.AwaitingPumps? && w.live > 0
    case RecheckState => w.holder.PumpsGone? && w.stateLock.Unlocked?
    case CommitFinalize => w.holder.Committed? && w.stateLock.Unlocked?
    case UnwrapSucceeds => w.holder.Unwrapping? && w.refs == {HolderRef}
    case UnwrapFails => w.holder.Unwrapping? && w.refs != {HolderRef}
    case Sleep => w.holder.Retrying?
    case TryAgain => w.holder.Sleeping?
    case GiveUp => w.holder.Retrying? && w.stateLock.Unlocked?
    case CoreFinished => w.holder.AwaitingCore?
    case HolderCancelled => w.holder.AwaitingPumps? || w.holder.Sleeping? || w.holder.AwaitingCore?
    case QueuedCancelled => w.shutdownsQueued > 0
  }

  function SetPump(w: World, k: nat, p: Pump): World
    requires k < |w.pumps|
  {
    w.(pumps := w.pumps[k := p])
  }

  function AbortAll(pumps: seq<Pump>): seq<Pump> {
    seq(|pumps|, k requires 0 <= k < |pumps| => if pumps[k].spawned then pumps[k].(aborted := true) else pumps[k])
  }

  /** The lock owner returns: its clone of the core, if it still has one, and the lock go with it. */
  function LeaveLock(w: World): World {
    w.(holder := Nobody, refs := w.refs - {HolderRef})
  }

  /** Storing `Finalized` drops whatever core the old state held. */
  function StoreFinalized(w: World): World {
    w.(ws := Finalized, refs := w.refs - {StateRef})
  }

  /** The steps of whoever is inside `shutdown_lock`. */
  predicate HolderStep(step: Step) {
    match step
    case LookAtState | AfterInitiate | DropDiscarded | SeePumpsGone | GraceExpires | RecheckState => true
    case CommitFinalize | UnwrapSucceeds | UnwrapFails | Sleep | TryAgain | GiveUp | CoreFinished | HolderCancelled => true
    case _ => false
  }

  function DoHolder(w: World, step: Step): World
    requires Enabled(w, step) && HolderStep(step)
  {
    match step
    case LookAtState =>
      if w.ws.Finalized? then LeaveLock(w)
      else if w.holder.background then w.(holder := Committed, refs := w.refs + {HolderRef})
      else
        var started := w.ws.Draining? || w.ws.started;
        w.(ws := Draining, holder := Initiated(started), refs := w.refs + {HolderRef})
    case AfterInitiate =>
      if w.holder.started then w.(holder := AwaitingPumps) else StoreFinalized(w).(holder := Discarding)
    case DropDiscarded => LeaveLock(w)
    case SeePumpsGone => w.(holder := PumpsGone)
    case GraceExpires => LeaveLock(w).(finalizersWaiting := w.finalizersWaiting + 1)
    case RecheckState => if w.ws.Finalized? then LeaveLock(w) else w.(holder := Committed)
    case CommitFinalize => StoreFinalized(w).(holder := Unwrapping)
    case UnwrapSucceeds => w.(holder := AwaitingCore, refs := {}, finalizeCalls := w.finalizeCalls + 1)
    case UnwrapFails => w.(holder := Retrying)
    case Sleep => w.(holder := Sleeping)
    case TryAgain => w.(holder := Unwrapping)
    case GiveUp => LeaveLock(w).(ws := Draining, refs := w.refs - {HolderRef} + {StateRef})
    case CoreFinished => LeaveLock(w)
    case HolderCancelled => LeaveLock(w)
  }

  /** The steps that change a pump, the pump counter or which pumps may exist. */
  predicate PumpStep(step: Step) {
    match step
    case StartStore | StartSpawn | PumpPolled(_) | PumpDropsCore(_) | PumpLeaves(_) | FreeTake => true
    case _ => false
  }

  function DoPump(w: World, step: Step): World
    requires Enabled(w, step) && PumpStep(step)
  {
    match step
    case StartStore => w.(live := 3, stateLock := ByStart(true, 0))
    case StartSpawn =>
      var k := w.stateLock.spawned;
      SetPump(w, k, Pump(true, false, true, true, false)).(
        refs := w.refs + {PumpRef(k)}, stateLock := ByStart(true, k + 1))
    case PumpPolled(k) => SetPump(w, k, w.pumps[k].(polled := true))
    case PumpDropsCore(k) => SetPump(w, k, w.pumps[k].(holds := false)).(refs := w.refs - {PumpRef(k)})
    case PumpLeaves(k) => SetPump(w, k, w.pumps[k].(counted := false)).(live := w.live - 1)
    case FreeTake =>
      w.(ws := Finalized, stateLock := ByFree, freeTaken := true, pumps := AbortAll(w.pumps),
         refs := if w.ws.Finalized? then w.refs else w.refs - {StateRef} + {FreeRef})
  }

  function DoOther(w: World, step: Step): World
    requires Enabled(w, step) && !HolderStep(step) && !PumpStep(step)
  {
    match step
    case StartBegin =>
      w.(ws := Running(true), everStarted := true, stateLock := ByStart(false, 0), refs := w.refs + {StartRef})
    case StartEnd => w.(stateLock := Unlocked, refs := w.refs - {StartRef})
    case FreeDone => w.(stateLock := Unlocked, refs := w.refs - {FreeRef})
    case CallTakesCore(call) => w.(refs := w.refs + {CallRef(call)})
    case CallDropsCore(call) => w.(refs := w.refs - {CallRef(call)})
    case ShutdownCalled => w.(shutdownsQueued := w.shutdownsQueued + 1)
    case ShutdownLocks => w.(shutdownsQueued := w.shutdownsQueued - 1, holder := Entering(false))
    case FinalizerSeesPumpsGone =>
      w.(finalizersWaiting := w.finalizersWaiting - 1, finalizersQueued := w.finalizersQueued + 1)
    case FinalizerLocks => w.(finalizersQueued := w.finalizersQueued - 1, holder := Entering(true))
    case QueuedCancelled => w.(shutdownsQueued := w.shutdownsQueued - 1)
  }

  function Do(w: World, step: Step): World
    requires Enabled(w, step)
  {
    if HolderStep(step) then DoHolder(w, step) else if PumpStep(step) then DoPump(w, step) else DoOther(w, step)
  }

  const NEW_PUMP: Pump := Pump(false, false, false, false, false)

  const NEW_WORLD: World :=
    World(Running(false), Unlocked, Nobody, 0, 0, 0, {StateRef}, [NEW_PUMP, NEW_PUMP, NEW_PUMP], 0, false, false, 0)

  ghost predicate Linked(run: seq<World>, steps: seq<Step>, k: nat)
    requires k < |steps| && |run| == |steps| + 1
  {
    Enabled(run[k], steps[k]) && run[k + 1] == Do(run[k], steps[k])
  }

  ghost predicate IsRun(run: seq<World>, steps: seq<Step>) {
    |run| == |steps| + 1 && run[0] == NEW_WORLD && forall k: nat :: k < |steps| ==> Linked(run, steps, k)
  }

  // ---------------------------------------------------------------------------------------------
  // The invariant, in four layers

  /** Between storing `Finalized` and owning the core alone or giving up. */
  predicate Finalizing(h: Holder) {
    h.Unwrapping? || h.Retrying? || h.Sleeping?
  }

  predicate HoldsCore(h: Holder) {
    h.Initiated? || h.Discarding? || h.AwaitingPumps? || h.PumpsGone? || h.Committed? || h.Unwrapping? || h.Retrying? || h.Sleeping?
  }

  /** Got here by reading a pump counter of zero. */
  predicate SawPumpsGone(h: Holder) {
    h.PumpsGone? || h.Committed? || h.Unwrapping? || h.Retrying? || h.Sleeping? || h.AwaitingCore? || h == Entering(true)
  }

  /** Who holds a reference is exactly what the phases say. */
  ghost predicate RefsExact(w: World) {
    && |w.pumps| == 3
    && (StateRef in w.refs <==> !w.ws.Finalized?)
    && (HolderRef in w.refs <==> HoldsCore(w.holder))
    && (StartRef in w.refs <==> w.stateLock.ByStart?)
    && (FreeRef in w.refs ==> w.stateLock.ByFree? && !Finalizing(w.holder))
  }

  ghost predicate PumpRefsExact(w: World)
    requires |w.pumps| == 3
  {
    forall k: nat :: PumpRef(k) in w.refs <==> k < 3 && w.pumps[k].holds
  }

  /** Waiting on pumps, or past that wait, only ever happens to a started worker. */
  ghost predicate StartedWhereNeeded(w: World) {
    && (w.ws.Running? ==> w.ws.started == w.everStarted)
    && (w.stateLock.ByStart? ==> w.ws == Running(true))
    && (w.ws.Draining? && !w.everStarted ==> w.holder == Initiated(false))
    && (w.holder.Initiated? ==> w.holder.started == w.everStarted)
    && (w.holder.Discarding? ==> !w.everStarted)
    && (w.holder.AwaitingPumps? || SawPumpsGone(w.holder) ==> w.everStarted)
    && (w.finalizersWaiting + w.finalizersQueued > 0 ==> w.everStarted && !w.ws.Running?)
    && (HoldsCore(w.holder) || SawPumpsGone(w.holder) || w.freeTaken ==> !w.ws.Running?)
    && (Finalizing(w.holder) || w.holder.Discarding? || w.holder.AwaitingCore? ==> w.ws.Finalized?)
  }

  function Counted(p: Pump): int {
    if p.counted then 1 else 0
  }

  function StillToSpawn(w: World): int {
    if w.stateLock.ByStart? && w.stateLock.stored then 3 - w.stateLock.spawned else 0
  }

  predicate PumpOk(p: Pump, k: nat, lock: StateLock, everStarted: bool, freeTaken: bool) {
    && (p.counted || p.holds ==> p.spawned)
    && (p.spawned ==> everStarted)
    && (lock.ByStart? ==> (p.spawned <==> k < lock.spawned))
    && (everStarted && !lock.ByStart? ==> p.spawned)
    && (freeTaken && p.spawned ==> p.aborted)
    && (p.aborted ==> freeTaken && p.spawned)
  }

  /** `live_pumps` is the pumps that have not left plus those `start` has still to spawn. */
  ghost predicate PumpsCounted(w: World)
    requires |w.pumps| == 3
  {
    && w.live == Counted(w.pumps[0]) + Counted(w.pumps[1]) + Counted(w.pumps[2]) + StillToSpawn(w)
    && (w.stateLock.ByStart? ==> w.stateLock.spawned <= 3 && (!w.stateLock.stored ==> w.stateLock.spawned == 0))
    && PumpOk(w.pumps[0], 0, w.stateLock, w.everStarted, w.freeTaken)
    && PumpOk(w.pumps[1], 1, w.stateLock, w.everStarted, w.freeTaken)
    && PumpOk(w.pumps[2], 2, w.stateLock, w.everStarted, w.freeTaken)
  }

  /** Past the wait the counter stays at zero; and after the one `finalize_shutdown` nobody has the core. */
  ghost predicate FinalizedLast(w: World) {
    && (SawPumpsGone(w.holder) || w.finalizersQueued > 0 ==> w.live == 0)
    && w.finalizeCalls <= 1
    && (w.finalizeCalls == 1 ==> w.refs == {})
  }

  ghost predicate Inv(w: World) {
    RefsExact(w) && PumpRefsExact(w) && StartedWhereNeeded(w) && PumpsCounted(w) && FinalizedLast(w)
  }

  lemma HolderKeepsRefsExact(w: World, step: Step)
    requires RefsExact(w) && StartedWhereNeeded(w) && Enabled(w, step) && HolderStep(step)
    ensures RefsExact(DoHolder(w, step))
  {
  }

  lemma PumpsKeepRefsExact(w: World, step: Step)
    requires RefsExact(w) && StartedWhereNeeded(w) && Enabled(w, step) && PumpStep(step)
    ensures RefsExact(DoPump(w, step))
  {
  }

  lemma OthersKeepRefsExact(w: World, step: Step)
    requires RefsExact(w) && StartedWhereNeeded(w) && Enabled(w, step) && !HolderStep(step) && !PumpStep(step)
    ensures RefsExact(DoOther(w, step))
  {
  }

  lemma HolderKeepsPumpRef(w: World, step: Step, k: nat)
    requires |w.pumps| == 3 && Enabled(w, step) && HolderStep(step)
    requires PumpRef(k) in w.refs <==> k < 3 && w.pumps[k].holds
    ensures |DoHolder(w, step).pumps| == 3
    ensures PumpRef(k) in DoHolder(w, step).refs <==> k < 3 && DoHolder(w, step).pumps[k].holds
  {
  }

  lemma PumpsKeepPumpRef(w: World, step: Step, k: nat)
    requires |w.pumps| == 3 && Enabled(w, step) && PumpStep(step)
    requires PumpRef(k) in w.refs <==> k < 3 && w.pumps[k].holds
    ensures |DoPump(w, step).pumps| == 3
    ensures PumpRef(k) in DoPump(w, step).refs <==> k < 3 && DoPump(w, step).pumps[k].holds
  {
  }

  lemma OthersKeepPumpRef(w: World, step: Step, k: nat)
    requires |w.pumps| == 3 && Enabled(w, step) && !HolderStep(step) && !PumpStep(step)
    requires PumpRef(k) in w.refs <==> k < 3 && w.pumps[k].holds
    ensures |DoOther(w, step).pumps| == 3
    ensures PumpRef(k) in DoOther(w, step).refs <==> k < 3 && DoOther(w, step).pumps[k].holds
  {
  }

  lemma PumpRefStaysExact(w: World, step: Step, k: nat)
    requires |w.pumps| == 3 && Enabled(w, step)
    requires PumpRef(k) in w.refs <==> k < 3 && w.pumps[k].holds
    ensures |Do(w, step).pumps| == 3
    ensures PumpRef(k) in Do(w, step).refs <==> k < 3 && Do(w, step).pumps[k].holds
  {
    if HolderStep(step) {
      HolderKeepsPumpRef(w, step, k);
    } else if PumpStep(step) {
      PumpsKeepPumpRef(w, step, k);
    } else {
      OthersKeepPumpRef(w, step, k);
    }
  }

  lemma PumpRefsStayExact(w: World, step: Step)
    requires |w.pumps| == 3 && PumpRefsExact(w) && Enabled(w, step)
    ensures |Do(w, step).pumps| == 3 && PumpRefsExact(Do(w, step))
  {
    forall k: nat ensures |Do(w, step).pumps| == 3 && (PumpRef(k) in Do(w, step).refs <==> k < 3 && Do(w, step).pumps[k].holds) {
      PumpRefStaysExact(w, step, k);
    }
    PumpRefStaysExact(w, step, 0);
  }

  lemma HolderKeepsStarted(w: World, step: Step)
    requires RefsExact(w) && StartedWhereNeeded(w) && Enabled(w, step) && HolderStep(step)
    ensures StartedWhereNeeded(DoHolder(w, step))
  {
  }

  lemma PumpsKeepStarted(w: World, step: Step)
    requires RefsExact(w) && StartedWhereNeeded(w) && Enabled(w, step) && PumpStep(step)
    ensures StartedWhereNeeded(DoPump(w, step))
  {
  }

  lemma OthersKeepStarted(w: World, step: Step)
    requires RefsExact(w) && StartedWhereNeeded(w) && Enabled(w, step) && !HolderStep(step) && !PumpStep(step)
    ensures StartedWhereNeeded(DoOther(w, step))
  {
  }

  lemma HolderLeavesPumpsAlone(w: World, step: Step)
    requires Enabled(w, step) && HolderStep(step)
    ensures var w' := DoHolder(w, step);
            && w'.pumps == w.pumps && w'.live == w.live && w'.stateLock == w.stateLock
            && w'.everStarted == w.everStarted && w'.freeTaken == w.freeTaken
  {
  }

  lemma HolderKeepsPumpsCounted(w: World, step: Step)
    requires |w.pumps| == 3 && PumpsCounted(w) && Enabled(w, step) && HolderStep(step)
    ensures |DoHolder(w, step).pumps| == 3 && PumpsCounted(DoHolder(w, step))
  {
    HolderLeavesPumpsAlone(w, step);
  }

  lemma PumpMoveKeepsPumpsCounted(w: World, step: Step)
    requires |w.pumps| == 3 && PumpsCounted(w) && Enabled(w, step)
    requires step.PumpPolled? || step.PumpDropsCore? || step.PumpLeaves?
    ensures |DoPump(w, step).pumps| == 3 && PumpsCounted(DoPump(w, step))
  {
  }

  lemma StartMoveKeepsPumpsCounted(w: World, step: Step)
    requires |w.pumps| == 3 && PumpsCounted(w) && StartedWhereNeeded(w) && Enabled(w, step)
    requires step.StartStore? || step.StartSpawn?
    ensures |DoPump(w, step).pumps| == 3 && PumpsCounted(DoPump(w, step))
  {
  }

  lemma FreeKeepsPumpsCounted(w: World)
    requires |w.pumps| == 3 && PumpsCounted(w) && Enabled(w, FreeTake)
    ensures |DoPump(w, FreeTake).pumps| == 3 && PumpsCounted(DoPump(w, FreeTake))
  {
  }

  lemma PumpsKeepPumpsCounted(w: World, step: Step)
    requires |w.pumps| == 3 && PumpsCounted(w) && StartedWhereNeeded(w) && Enabled(w, step) && PumpStep(step)
    ensures |DoPump(w, step).pumps| == 3 && PumpsCounted(DoPump(w, step))
  {
    match step
    case FreeTake => FreeKeepsPumpsCounted(w);
    case StartStore | StartSpawn => StartMoveKeepsPumpsCounted(w, step);
    case _ => PumpMoveKeepsPumpsCounted(w, step);
  }

  lemma OthersKeepPumpsCounted(w: World, step: Step)
    requires |w.pumps| == 3 && PumpsCounted(w) && StartedWhereNeeded(w) && Enabled(w, step) && !HolderStep(step) && !PumpStep(step)
    ensures |DoOther(w, step).pumps| == 3 && PumpsCounted(DoOther(w, step))
  {
  }

  lemma HolderFinalizesLast(w: World, step: Step)
    requires Inv(w) && Enabled(w, step) && HolderStep(step)
    ensures FinalizedLast(DoHolder(w, step))
  {
  }

  lemma PumpsFinalizeLast(w: World, step: Step)
    requires Inv(w) && Enabled(w, step) && PumpStep(step)
    ensures FinalizedLast(DoPump(w, step))
  {
  }

  lemma OthersFinalizeLast(w: World, step: Step)
    requires Inv(w) && Enabled(w, step) && !HolderStep(step) && !PumpStep(step)
    ensures FinalizedLast(DoOther(w, step))
  {
  }

  lemma StepKeepsInv(w: World, step: Step)
    requires Inv(w) && Enabled(w, step)
    ensures Inv(Do(w, step))
  {
    PumpRefsStayExact(w, step);
    if HolderStep(step) {
      HolderKeepsRefsExact(w, step);
      HolderKeepsStarted(w, step);
      HolderKeepsPumpsCounted(w, step);
      HolderFinalizesLast(w, step);
    } else if PumpStep(step) {
      PumpsKeepRefsExact(w, step);
      PumpsKeepStarted(w, step);
      PumpsKeepPumpsCounted(w, step);
      PumpsFinalizeLast(w, step);
    } else {
      OthersKeepRefsExact(w, step);
      OthersKeepStarted(w, step);
      OthersKeepPumpsCounted(w, step);
      OthersFinalizeLast(w, step);
    }
  }

  lemma RunStepKeepsInv(run: seq<World>, steps: seq<Step>, k: nat)
    requires IsRun(run, steps) && k < |steps| && Inv(run[k])
    ensures Inv(run[k + 1])
  {
    assert Linked(run, steps, k);
    StepKeepsInv(run[k], steps[k]);
  }

  lemma {:induction false} RunsAreSafe(run: seq<World>, steps: seq<Step>, k: nat)
    requires IsRun(run, steps) && k < |run|
    ensures RefsExact(run[k]) && PumpRefsExact(run[k]) && StartedWhereNeeded(run[k]) && PumpsCounted(run[k]) && FinalizedLast(run[k])
  {
    if k > 0 {
      RunsAreSafe(run, steps, k - 1);
      RunStepKeepsInv(run, steps, k - 1);
    }
  }

  // ---------------------------------------------------------------------------------------------
  // What that means

  lemma HolderNeverReenters(w: World, step: Step)
    requires StartedWhereNeeded(w) && Enabled(w, step) && HolderStep(step)
    ensures !w.ws.Running? ==> !DoHolder(w, step).ws.Running?
    ensures w.finalizeCalls <= DoHolder(w, step).finalizeCalls && (w.freeTaken ==> DoHolder(w, step).freeTaken)
  {
  }

  lemma PumpsNeverReenter(w: World, step: Step)
    requires StartedWhereNeeded(w) && Enabled(w, step) && PumpStep(step)
    ensures !w.ws.Running? ==> !DoPump(w, step).ws.Running?
    ensures w.finalizeCalls <= DoPump(w, step).finalizeCalls && (w.freeTaken ==> DoPump(w, step).freeTaken)
  {
  }

  lemma OthersNeverReenter(w: World, step: Step)
    requires StartedWhereNeeded(w) && Enabled(w, step) && !HolderStep(step) && !PumpStep(step)
    ensures !w.ws.Running? ==> !DoOther(w, step).ws.Running?
    ensures w.finalizeCalls <= DoOther(w, step).finalizeCalls && (w.freeTaken ==> DoOther(w, step).freeTaken)
  {
  }

  lemma RunningIsNeverReentered(w: World, step: Step)
    requires Inv(w) && Enabled(w, step)
    ensures !w.ws.Running? ==> !Do(w, step).ws.Running?
    ensures w.finalizeCalls <= Do(w, step).finalizeCalls && (w.freeTaken ==> Do(w, step).freeTaken)
  {
    if HolderStep(step) {
      HolderNeverReenters(w, step);
    } else if PumpStep(step) {
      PumpsNeverReenter(w, step);
    } else {
      OthersNeverReenter(w, step);
    }
  }

  lemma {:induction false} CallsNeverDecrease(run: seq<World>, steps: seq<Step>, i: nat, j: nat)
    requires IsRun(run, steps) && i <= j < |run|
    ensures run[i].finalizeCalls <= run[j].finalizeCalls
    ensures run[i].freeTaken ==> run[j].freeTaken
    ensures !run[i].ws.Running? ==> !run[j].ws.Running?
    decreases j
  {
    if i < j {
      CallsNeverDecrease(run, steps, i, j - 1);
      RunsAreSafe(run, steps, j - 1);
      assert Linked(run, steps, j - 1);
      RunningIsNeverReentered(run[j - 1], steps[j - 1]);
    }
  }

  /**
   `finalize_shutdown` is called at most once in any run, and only on a started worker whose pumps
   have all left, with no other reference to the core anywhere and none obtainable later.
   */
  lemma FinalizeRunsOnceAndLast(run: seq<World>, steps: seq<Step>, k: nat)
    requires IsRun(run, steps) && k < |steps| && steps[k] == UnwrapSucceeds
    ensures run[k].finalizeCalls == 0 && run[k].everStarted && run[k].live == 0 && run[k].ws == Finalized
    ensures |run[k].pumps| == 3
    ensures forall p :: 0 <= p < 3 ==> run[k].pumps[p].spawned && !run[k].pumps[p].counted && !run[k].pumps[p].holds
    ensures forall j :: k < j < |run| ==> run[j].refs == {} && run[j].ws == Finalized && run[j].finalizeCalls == 1
  {
    RunsAreSafe(run, steps, k);
    assert Linked(run, steps, k);
    forall p | 0 <= p < 3 ensures !run[k].pumps[p].holds {
      assert PumpRef(p) !in run[k].refs;
    }
    forall j | k < j < |run| ensures run[j].refs == {} && run[j].ws == Finalized && run[j].finalizeCalls == 1 {
      CallsNeverDecrease(run, steps, k + 1, j);
      RunsAreSafe(run, steps, j);
    }
  }

  /** A draining state seen by anyone outside the shutdown lock belongs to a started worker. */
  lemma DrainingImpliesStarted(run: seq<World>, steps: seq<Step>, k: nat)
    requires IsRun(run, steps) && k < |run| && run[k].ws == Draining && run[k].holder == Nobody
    ensures run[k].everStarted
  {
    RunsAreSafe(run, steps, k);
  }

  /** Once `free` has taken the state, every poll task ever spawned is aborted and no other can be spawned. */
  lemma FreeMissesNoPump(run: seq<World>, steps: seq<Step>, at: nat, k: nat)
    requires IsRun(run, steps) && at < k < |run| && steps[at] == FreeTake
    ensures |run[k].pumps| == 3
    ensures forall p :: 0 <= p < 3 && run[k].pumps[p].spawned ==> run[k].pumps[p].aborted
    ensures k < |steps| ==> steps[k] != StartBegin && steps[k] != StartSpawn
  {
    assert Linked(run, steps, at);
    CallsNeverDecrease(run, steps, at + 1, k);
    RunsAreSafe(run, steps, k);
    assert k < |steps| ==> Linked(run, steps, k);
  }

  // ---------------------------------------------------------------------------------------------
  // Nobody who waits for the lock is forgotten

  predicate IsShutdown(step: Step) {
    step.ShutdownCalled?
  }

  predicate IsShutdownLock(step: Step) {
    step.ShutdownLocks?
  }

  predicate IsWithdrawal(step: Step) {
    step.QueuedCancelled?
  }

  predicate IsExpiry(step: Step) {
    step.GraceExpires?
  }

  predicate IsSighting(step: Step) {
    step.FinalizerSeesPumpsGone?
  }

  predicate IsFinalizerLock(step: Step) {
    step.FinalizerLocks?
  }

  function Shutdowns(step: Step): int {
    if step.ShutdownCalled? then 1 else if step.ShutdownLocks? || step.QueuedCancelled? then -1 else 0
  }

  lemma HolderMovesQueues(w: World, step: Step)
    requires Enabled(w, step) && HolderStep(step)
    ensures var w' := DoHolder(w, step);
            && w'.shutdownsQueued == w.shutdownsQueued && w'.finalizersQueued == w.finalizersQueued
            && w'.finalizersWaiting == w.finalizersWaiting + if IsExpiry(step) then 1 else 0
  {
  }

  lemma PumpsMoveNoQueues(w: World, step: Step)
    requires Enabled(w, step) && PumpStep(step)
    ensures var w' := DoPump(w, step);
            && w'.shutdownsQueued == w.shutdownsQueued && w'.finalizersQueued == w.finalizersQueued
            && w'.finalizersWaiting == w.finalizersWaiting
  {
  }

  lemma OthersMoveQueues(w: World, step: Step)
    requires Enabled(w, step) && !HolderStep(step) && !PumpStep(step)
    ensures var w' := DoOther(w, step);
            && w'.shutdownsQueued == w.shutdownsQueued + Shutdowns(step)
            && w'.finalizersWaiting == w.finalizersWaiting - (if IsSighting(step) then 1 else 0)
            && w'.finalizersQueued == w.finalizersQueued + (if IsSighting(step) then 1 else 0) - (if IsFinalizerLock(step) then 1 else 0)
  {
  }

  lemma QueuesMove(w: World, step: Step)
    requires Enabled(w, step)
    ensures var w' := Do(w, step);
            && w'.shutdownsQueued == w.shutdownsQueued + Shutdowns(step)
            && w'.finalizersWaiting == w.finalizersWaiting + (if IsExpiry(step) then 1 else 0) - (if IsSighting(step) then 1 else 0)
            && w'.finalizersQueued == w.finalizersQueued + (if IsSighting(step) then 1 else 0) - (if IsFinalizerLock(step) then 1 else 0)
  {
    if HolderStep(step) {
      HolderMovesQueues(w, step);
    } else if PumpStep(step) {
      PumpsMoveNoQueues(w, step);
    } else {
      OthersMoveQueues(w, step);
    }
  }

  /**
   Whoever waits for `shutdown_lock` is accounted for: a shutdown call queues until it gets the lock or is
   withdrawn, and each expired grace leaves one finalizer that waits for the pumps and then queues.
   */
  lemma {:induction false} QueuesAreExact(run: seq<World>, steps: seq<Step>, k: nat)
    requires IsRun(run, steps) && k < |run|
    ensures var s := steps[..k];
            && Runs.Count(s, IsShutdown) == run[k].shutdownsQueued + Runs.Count(s, IsShutdownLock) + Runs.Count(s, IsWithdrawal)
            && Runs.Count(s, IsExpiry) == run[k].finalizersWaiting + Runs.Count(s, IsSighting)
            && Runs.Count(s, IsSighting) == run[k].finalizersQueued + Runs.Count(s, IsFinalizerLock)
  {
    if k > 0 {
      QueuesAreExact(run, steps, k - 1);
      assert Linked(run, steps, k - 1);
      QueuesMove(run[k - 1], steps[k - 1]);
      Runs.CountNext(steps, k - 1, IsShutdown);
      Runs.CountNext(steps, k - 1, IsShutdownLock);
      Runs.CountNext(steps, k - 1, IsWithdrawal);
      Runs.CountNext(steps, k - 1, IsExpiry);
      Runs.CountNext(steps, k - 1, IsSighting);
      Runs.CountNext(steps, k - 1, IsFinalizerLock);
    }
  }

  /** Finalized, or somebody is bound to finalize: a background finalizer, or a lock owner that can no longer be cancelled first. */
  predicate FollowedUp(w: World) {
    w.ws.Finalized? || w.finalizersWaiting + w.finalizersQueued > 0 || w.holder == Entering(true) || w.holder.Committed?
  }

  lemma OnlyGivingUpEndsIt(w: World, step: Step)
    requires Enabled(w, step) && (FollowedUp(w) || step == GraceExpires) && step != GiveUp
    ensures FollowedUp(Do(w, step))
  {
  }

  /** From the moment a grace expires the worker is finalized or somebody is bound to do it, until a finalizer gives up. */
  lemma {:induction false} ExpiredGraceIsFollowedUp(run: seq<World>, steps: seq<Step>, j: nat, k: nat)
    requires IsRun(run, steps) && j < k < |run| && steps[j] == GraceExpires
    requires forall m :: j < m < k ==> steps[m] != GiveUp
    ensures FollowedUp(run[k])
    decreases k
  {
    assert Linked(run, steps, k - 1);
    if j < k - 1 { ExpiredGraceIsFollowedUp(run, steps, j, k - 1); }
    OnlyGivingUpEndsIt(run[k - 1], steps[k - 1]);
  }

  // ---------------------------------------------------------------------------------------------
  // Nobody keeps a lock for ever

  /** The most steps the owner of `shutdown_lock` still takes before it tries the unwrap again or leaves. */
  function HolderLeft(h: Holder): nat {
    match h
    case Nobody => 0
    case Entering(_) => 9
    case Initiated(_) => 8
    case AwaitingPumps => 7
    case PumpsGone => 6
    case Committed => 5
    case Unwrapping => 4
    case Retrying => 3
    case Sleeping => 2
    case AwaitingCore | Discarding => 1
  }

  function LockLeft(l: StateLock): int {
    match l
    case Unlocked => 0
    case ByFree => 1
    case ByStart(stored, spawned) => if stored then 4 - spawned else 5
  }

  predicate TakesShutdownLock(step: Step) {
    step.ShutdownLocks? || step.FinalizerLocks?
  }

  predicate IsRetry(step: Step) {
    step.TryAgain?
  }

  /** The steps under the state lock of `start` and of `free`. */
  predicate LockStep(step: Step) {
    step.StartStore? || step.StartSpawn? || step.StartEnd? || step.FreeDone?
  }

  predicate IsStart(step: Step) {
    step.StartBegin?
  }

  predicate IsFree(step: Step) {
    step.FreeTake?
  }

  lemma OwnerMovesOn(w: World, step: Step)
    requires Enabled(w, step) && HolderStep(step)
    ensures HolderLeft(DoHolder(w, step).holder) + 1 <= HolderLeft(w.holder) + (if IsRetry(step) then 3 else 0)
  {
  }

  lemma HolderMovesOn(w: World, step: Step)
    requires Enabled(w, step)
    ensures HolderLeft(Do(w, step).holder) + (if HolderStep(step) then 1 else 0)
         <= HolderLeft(w.holder) + (if TakesShutdownLock(step) then 9 else 0) + (if IsRetry(step) then 3 else 0)
  {
    if HolderStep(step) {
      OwnerMovesOn(w, step);
    } else if PumpStep(step) {
      assert DoPump(w, step).holder == w.holder;
    }
  }

  lemma LockMovesOn(w: World, step: Step)
    requires Enabled(w, step) && |w.pumps| == 3
    ensures LockLeft(Do(w, step).stateLock) + (if LockStep(step) then 1 else 0)
         == LockLeft(w.stateLock) + (if IsStart(step) then 5 else 0) + (if IsFree(step) then 1 else 0)
  {
    if HolderStep(step) { HolderLeavesPumpsAlone(w, step); }
  }

  /** Whoever takes `shutdown_lock` leaves it after nine steps, and three for every time it tries the unwrap again. */
  lemma {:induction false} HolderStepsAreBounded(run: seq<World>, steps: seq<Step>, k: nat)
    requires IsRun(run, steps) && k < |run|
    ensures Runs.Count(steps[..k], HolderStep) + HolderLeft(run[k].holder)
         <= 9 * Runs.Count(steps[..k], TakesShutdownLock) + 3 * Runs.Count(steps[..k], IsRetry)
  {
    if k > 0 {
      HolderStepsAreBounded(run, steps, k - 1);
      assert Linked(run, steps, k - 1);
      HolderMovesOn(run[k - 1], steps[k - 1]);
      Runs.CountNext(steps, k - 1, HolderStep);
      Runs.CountNext(steps, k - 1, TakesShutdownLock);
      Runs.CountNext(steps, k - 1, IsRetry);
    }
  }

  /** `start` keeps the state lock for five steps, `free` for one. */
  lemma {:induction false} LockStepsAreExact(run: seq<World>, steps: seq<Step>, k: nat)
    requires IsRun(run, steps) && k < |run|
    ensures Runs.Count(steps[..k], LockStep) + LockLeft(run[k].stateLock)
         == 5 * Runs.Count(steps[..k], IsStart) + Runs.Count(steps[..k], IsFree)
  {
    if k > 0 {
      LockStepsAreExact(run, steps, k - 1);
      RunsAreSafe(run, steps, k - 1);
      assert Linked(run, steps, k - 1);
      LockMovesOn(run[k - 1], steps[k - 1]);
      Runs.CountNext(steps, k - 1, LockStep);
      Runs.CountNext(steps, k - 1, IsStart);
      Runs.CountNext(steps, k - 1, IsFree);
    }
  }

  /** The owner of the state lock can always go on, and so, once that one is free, can the owner of `shutdown_lock`. */
  lemma OwnersCanGoOn(w: World) returns (step: Step)
    requires Inv(w) && (w.holder != Nobody || w.stateLock != Unlocked)
    ensures Enabled(w, step) && if w.stateLock != Unlocked then LockStep(step) else HolderStep(step)
  {
    step := match w.stateLock
            case ByFree => FreeDone
            case ByStart(stored, spawned) => if !stored then StartStore else if spawned < 3 then StartSpawn else StartEnd
            case Unlocked =>
              match w.holder
              case Nobody | Entering(_) => LookAtState
              case Initiated(_) => AfterInitiate
              case Discarding => DropDiscarded
              case AwaitingPumps => if w.live == 0 then SeePumpsGone else GraceExpires
              case PumpsGone => RecheckState
              case Committed => CommitFinalize
              case Unwrapping => if w.refs == {HolderRef} then UnwrapSucceeds else UnwrapFails
              case Retrying => Sleep
              case Sleeping => TryAgain
              case AwaitingCore => CoreFinished;
  }

  lemma CoreStepKeepsLock(w: World, step: Step)
    requires Enabled(w, step) && (w.holder == AwaitingCore || step == UnwrapSucceeds)
    ensures step == CoreFinished || step == HolderCancelled || Do(w, step).holder == AwaitingCore
    ensures !TakesShutdownLock(step)
  {
    if PumpStep(step) { assert DoPump(w, step).holder == w.holder; }
  }

  lemma RunStepKeepsLock(run: seq<World>, steps: seq<Step>, k: nat)
    requires IsRun(run, steps) && k < |steps| && (run[k].holder == AwaitingCore || steps[k] == UnwrapSucceeds)
    ensures steps[k] == CoreFinished || steps[k] == HolderCancelled || run[k + 1].holder == AwaitingCore
    ensures !TakesShutdownLock(steps[k])
  {
    assert Linked(run, steps, k);
    CoreStepKeepsLock(run[k], steps[k]);
  }

  /** Core finishes under `shutdown_lock`: no other shutdown gets in, let alone returns, before it has or its caller is gone. */
  lemma {:induction false} CoreFinishesUnderTheLock(run: seq<World>, steps: seq<Step>, j: nat, k: nat)
    requires IsRun(run, steps) && j < k < |run| && steps[j] == UnwrapSucceeds
    requires forall m :: j < m < k ==> steps[m] != CoreFinished && steps[m] != HolderCancelled
    ensures run[k].holder == AwaitingCore && (k < |steps| ==> !TakesShutdownLock(steps[k]))
    decreases k
  {
    if j < k - 1 { CoreFinishesUnderTheLock(run, steps, j, k - 1); }
    RunStepKeepsLock(run, steps, k - 1);
    if k < |steps| { RunStepKeepsLock(run, steps, k); }
  }

  predicate HasRun(pumps: seq<Pump>, p: nat) {
    p < |pumps| && pumps[p].polled && pumps[p].spawned
  }

  lemma PumpsStayPolled(w: World, step: Step, p: nat)
    requires |w.pumps| == 3 && PumpsCounted(w) && Enabled(w, step) && PumpStep(step)
    requires HasRun(w.pumps, p) || (step == PumpPolled(p) && w.pumps[p].spawned)
    ensures HasRun(DoPump(w, step).pumps, p)
  {
    assert p == 0 || p == 1 || p == 2;
  }

  lemma StepKeepsPolled(w: World, step: Step, p: nat)
    requires Inv(w) && Enabled(w, step) && (HasRun(w.pumps, p) || step == PumpPolled(p))
    ensures HasRun(Do(w, step).pumps, p)
  {
    if HolderStep(step) {
      HolderLeavesPumpsAlone(w, step);
    } else if PumpStep(step) {
      assert p == 0 || p == 1 || p == 2;
      PumpsStayPolled(w, step, p);
    }
  }

  lemma {:induction false} PolledStays(run: seq<World>, steps: seq<Step>, j: nat, k: nat, p: nat)
    requires IsRun(run, steps) && j < k < |run| && steps[j] == PumpPolled(p)
    ensures HasRun(run[k].pumps, p)
    decreases k
  {
    if j < k - 1 { PolledStays(run, steps, j, k - 1, p); }
    RunsAreSafe(run, steps, k - 1);
    assert Linked(run, steps, k - 1);
    StepKeepsPolled(run[k - 1], steps[k - 1], p);
  }

  /** A pump that has run keeps the counter up until it has dropped its clone of the core. */
  lemma PolledPumpsDropFirst(run: seq<World>, steps: seq<Step>, j: nat, k: nat, p: nat)
    requires IsRun(run, steps) && j < k < |steps| && steps[j] == PumpPolled(p) && steps[k] == PumpLeaves(p)
    ensures p < |run[k].pumps| && !run[k].pumps[p].holds
  {
    PolledStays(run, steps, j, k, p);
    assert Linked(run, steps, k);
  }

  /** How often this call has taken the core and not dropped it. */
  ghost function Borrowed(steps: seq<Step>, call: nat): int {
    if steps == [] then 0
    else
      var last := steps[|steps| - 1];
      Borrowed(steps[..|steps| - 1], call) + (if last == CallTakesCore(call) then 1 else 0) - (if last == CallDropsCore(call) then 1 else 0)
  }

  lemma HolderKeepsCalls(w: World, step: Step, call: nat)
    requires Inv(w) && Enabled(w, step) && HolderStep(step)
    ensures CallRef(call) in DoHolder(w, step).refs <==> CallRef(call) in w.refs
  {
  }

  lemma PumpsKeepCalls(w: World, step: Step, call: nat)
    requires Enabled(w, step) && PumpStep(step)
    ensures CallRef(call) in DoPump(w, step).refs <==> CallRef(call) in w.refs
  {
  }

  function Uses(w: World, call: nat): int {
    if CallRef(call) in w.refs then 1 else 0
  }

  lemma CallRefMoves(w: World, step: Step, call: nat)
    requires Inv(w) && Enabled(w, step)
    ensures Uses(Do(w, step), call)
         == Uses(w, call) + (if step == CallTakesCore(call) then 1 else 0) - (if step == CallDropsCore(call) then 1 else 0)
  {
    if HolderStep(step) {
      HolderKeepsCalls(w, step, call);
    } else if PumpStep(step) {
      PumpsKeepCalls(w, step, call);
    }
  }

  /** A call is counted as a user of the core exactly from taking to dropping it. */
  lemma {:induction false} CallsHoldWhileBorrowed(run: seq<World>, steps: seq<Step>, k: nat, call: nat)
    requires IsRun(run, steps) && k < |run|
    ensures Borrowed(steps[..k], call) == Uses(run[k], call)
  {
    if k > 0 {
      CallsHoldWhileBorrowed(run, steps, k - 1, call);
      RunsAreSafe(run, steps, k - 1);
      assert Linked(run, steps, k - 1);
      CallRefMoves(run[k - 1], steps[k - 1], call);
      assert steps[..k][..k - 1] == steps[..k - 1];
    }
  }

  // ---------------------------------------------------------------------------------------------
  // When `Finalized` is final

  ghost predicate Moves(before: World, after: World) {
    exists step :: Enabled(before, step) && after == Do(before, step)
  }

  ghost predicate Reaches(w: World, later: World) {
    Runs.Reaches(Moves, w, later)
  }

  ghost predicate FinalForever(w: World) {
    forall later :: Reaches(w, later) ==> later.ws.Finalized?
  }

  lemma ReachesNext(w: World, later: World, step: Step)
    requires Reaches(w, later) && Enabled(later, step)
    ensures Reaches(w, Do(later, step))
  {
    assert Moves(later, Do(later, step));
    Runs.ReachesNext(Moves, w, later, Do(later, step));
  }

  /** A pump that has not dropped its clone of the core, or a call that is using one. */
  predicate Elsewhere(r: Ref) {
    r.PumpRef? || r.CallRef?
  }

  /**
   A finalizer that has just been told of another reference, or that is past its last look at the state
   while some pump or call still holds the core.
   */
  ghost predicate MayGiveUp(w: World) {
    || w.holder.Retrying?
    || ((w.holder.Committed? || w.holder.Unwrapping? || w.holder.Sleeping?) && exists r :: r in w.refs && Elsewhere(r))
  }

  /** Past the commitment, the finalizer's own clone is the only one a pump or call does not hold. */
  lemma AloneWhenNobodyElse(w: World)
    requires Inv(w) && w.holder.Unwrapping? && forall r :: r in w.refs ==> !Elsewhere(r)
    ensures w.refs == {HolderRef}
  {
    forall r ensures r in w.refs <==> r == HolderRef {
    }
  }

  lemma HolderKeepsFinal(w: World, step: Step)
    requires Inv(w) && w.ws.Finalized? && !MayGiveUp(w) && Enabled(w, step) && HolderStep(step)
    ensures DoHolder(w, step).ws.Finalized? && !MayGiveUp(DoHolder(w, step))
  {
    if step.UnwrapFails? {
      AloneWhenNobodyElse(w);
    } else {
      assert forall r :: r in DoHolder(w, step).refs && Elsewhere(r) ==> r in w.refs;
    }
  }

  lemma PumpsKeepFinal(w: World, step: Step)
    requires Inv(w) && w.ws.Finalized? && !MayGiveUp(w) && Enabled(w, step) && PumpStep(step)
    ensures DoPump(w, step).ws.Finalized? && !MayGiveUp(DoPump(w, step))
  {
    assert forall r :: r in DoPump(w, step).refs && Elsewhere(r) ==> r in w.refs;
  }

  lemma OthersKeepFinal(w: World, step: Step)
    requires Inv(w) && w.ws.Finalized? && !MayGiveUp(w) && Enabled(w, step) && !HolderStep(step) && !PumpStep(step)
    ensures DoOther(w, step).ws.Finalized? && !MayGiveUp(DoOther(w, step))
  {
    assert forall r :: r in DoOther(w, step).refs && Elsewhere(r) ==> r in w.refs;
  }

  lemma StepKeepsFinal(w: World, step: Step)
    requires Inv(w) && w.ws.Finalized? && !MayGiveUp(w) && Enabled(w, step)
    ensures Do(w, step).ws.Finalized? && !MayGiveUp(Do(w, step))
  {
    var w' := Do(w, step);
    if HolderStep(step) {
      HolderKeepsFinal(w, step);
    } else if PumpStep(step) {
      PumpsKeepFinal(w, step);
    } else {
      OthersKeepFinal(w, step);
    }
  }

  ghost predicate SafelyFinal(w: World) {
    Inv(w) && w.ws.Finalized? && !MayGiveUp(w)
  }

  lemma MovesKeepFinal(before: World, after: World)
    requires SafelyFinal(before) && Moves(before, after)
    ensures SafelyFinal(after)
  {
    var step :| Enabled(before, step) && after == Do(before, step);
    StepKeepsInv(before, step);
    StepKeepsFinal(before, step);
  }

  lemma RetryingGivesUp(w: World, later: World)
    requires Reaches(w, later) && later.holder.Retrying? && later.stateLock.Unlocked?
    ensures Reaches(w, Do(later, GiveUp)) && Do(later, GiveUp).ws.Draining?
  {
    ReachesNext(w, later, GiveUp);
  }

  lemma UnwrappingGivesUp(w: World, later: World, r: Ref) returns (end: World)
    requires Reaches(w, later) && later.holder.Unwrapping? && later.stateLock.Unlocked?
    requires r in later.refs && r != HolderRef
    ensures Reaches(w, end) && end.ws.Draining?
  {
    ReachesNext(w, later, UnwrapFails);
    RetryingGivesUp(w, Do(later, UnwrapFails));
    end := Do(Do(later, UnwrapFails), GiveUp);
  }

  /** From an unlocked state on: store the state, find the other reference, give up. */
  lemma UnlockedGivesUp(w: World, later: World) returns (end: World)
    requires Reaches(w, later) && later.stateLock.Unlocked? && MayGiveUp(later)
    ensures Reaches(w, end) && end.ws.Draining?
  {
    if later.holder.Retrying? {
      RetryingGivesUp(w, later);
      end := Do(later, GiveUp);
    } else {
      var r :| r in later.refs && Elsewhere(r);
      if later.holder.Committed? {
        ReachesNext(w, later, CommitFinalize);
        end := UnwrappingGivesUp(w, Do(later, CommitFinalize), r);
      } else if later.holder.Sleeping? {
        ReachesNext(w, later, TryAgain);
        end := UnwrappingGivesUp(w, Do(later, TryAgain), r);
      } else {
        end := UnwrappingGivesUp(w, later, r);
      }
    }
  }

  lemma GiveUpIsReachable(w: World) returns (end: World)
    requires Inv(w) && w.ws.Finalized? && MayGiveUp(w)
    ensures Reaches(w, end) && end.ws.Draining?
  {
    Runs.ReachesItself(Moves, w);
    if w.stateLock.ByFree? {
      ReachesNext(w, w, FreeDone);
      assert forall r :: r in w.refs && Elsewhere(r) ==> r in Do(w, FreeDone).refs;
      end := UnlockedGivesUp(w, Do(w, FreeDone));
    } else {
      end := UnlockedGivesUp(w, w);
    }
  }

  /** A finalized worker stays finalized in every continuation exactly when nobody is in a position to give up. */
  lemma FinalizedIsFinalIff(w: World)
    requires Inv(w) && w.ws.Finalized?
    ensures FinalForever(w) <==> !MayGiveUp(w)
  {
    if MayGiveUp(w) {
      var end := GiveUpIsReachable(w);
    } else {
      forall before, after | SafelyFinal(before) && Moves(before, after) ensures SafelyFinal(after) {
        MovesKeepFinal(before, after);
      }
      forall later | Reaches(w, later) ensures later.ws.Finalized? {
        Runs.KeptForever(Moves, SafelyFinal, w, later);
      }
    }
  }

  /** A force-close is final exactly when, at that moment, no finalizer was in a position to give up. */
  lemma ForceCloseIsFinalIff(run: seq<World>, steps: seq<Step>, k: nat)
    requires IsRun(run, steps) && k < |steps| && steps[k] == FreeTake
    ensures FinalForever(run[k + 1]) <==> !MayGiveUp(run[k])
  {
    assert Linked(run, steps, k);
    RunsAreSafe(run, steps, k + 1);
    FinalizedIsFinalIff(run[k + 1]);
    assert forall r :: Elsewhere(r) ==> (r in run[k].refs <==> r in run[k + 1].refs);
  }

  // ---------------------------------------------------------------------------------------------
  // A run that revives a force-closed worker

  /** The first `spawned` pumps exist, and of them the first `ended` have dropped the core and left. */
  function Pumps(spawned: nat, ended: nat): seq<Pump> {
    seq(3, k requires 0 <= k < 3 => Pump(k < spawned, false, ended <= k < spawned, ended <= k < spawned, false))
  }

  function PumpRefs(spawned: nat, ended: nat): set<Ref> {
    set k: nat | ended <= k < spawned :: PumpRef(k)
  }

  function Starting(lock: StateLock, spawned: nat, live: int): World {
    World(Running(true), lock, Nobody, 0, 0, 0, {StateRef, StartRef} + PumpRefs(spawned, 0), Pumps(spawned, 0), live, true, false, 0)
  }

  function Ending(ended: nat): World {
    World(Running(true), Unlocked, Nobody, 0, 0, 0, {StateRef} + PumpRefs(3, ended), Pumps(3, ended), 3 - ended, true, false, 0)
  }

  /** All pumps gone, call 0 still using the core, one shutdown on its way. */
  function Closing(ws: WorkerState, holder: Holder, queued: nat, refs: set<Ref>): World {
    World(ws, Unlocked, holder, queued, 0, 0, refs, Pumps(3, 3), 0, true, false, 0)
  }

  lemma SpawnNext(n: nat)
    requires n < 3 && Reaches(NEW_WORLD, Starting(ByStart(true, n), n, 3))
    ensures Reaches(NEW_WORLD, Starting(ByStart(true, n + 1), n + 1, 3))
  {
    var w := Starting(ByStart(true, n), n, 3);
    ReachesNext(NEW_WORLD, w, StartSpawn);
    assert Pumps(n, 0)[n := Pump(true, false, true, true, false)] == Pumps(n + 1, 0);
    assert w.refs + {PumpRef(n)} == {StateRef, StartRef} + PumpRefs(n + 1, 0);
  }

  lemma StartIsReachable()
    ensures Reaches(NEW_WORLD, Ending(0))
  {
    Runs.ReachesItself(Moves, NEW_WORLD);
    ReachesNext(NEW_WORLD, NEW_WORLD, StartBegin);
    assert NEW_WORLD.pumps == Pumps(0, 0) && PumpRefs(0, 0) == {};
    assert {StateRef} + {StartRef} == {StateRef, StartRef} + PumpRefs(0, 0);
    assert Do(NEW_WORLD, StartBegin) == Starting(ByStart(false, 0), 0, 0);
    ReachesNext(NEW_WORLD, Starting(ByStart(false, 0), 0, 0), StartStore);
    SpawnNext(0);
    SpawnNext(1);
    SpawnNext(2);
    ReachesNext(NEW_WORLD, Starting(ByStart(true, 3), 3, 3), StartEnd);
    assert {StateRef, StartRef} + PumpRefs(3, 0) - {StartRef} == {StateRef} + PumpRefs(3, 0);
  }

  lemma EndNext(n: nat)
    requires n < 3 && Reaches(NEW_WORLD, Ending(n))
    ensures Reaches(NEW_WORLD, Ending(n + 1))
  {
    var w := Ending(n);
    ReachesNext(NEW_WORLD, w, PumpDropsCore(n));
    var dropped := Do(w, PumpDropsCore(n));
    ReachesNext(NEW_WORLD, dropped, PumpLeaves(n));
    assert w.refs - {PumpRef(n)} == {StateRef} + PumpRefs(3, n + 1);
    assert Do(dropped, PumpLeaves(n)).pumps == Pumps(3, n + 1);
  }

  lemma PumpsEnd()
    ensures Reaches(NEW_WORLD, Closing(Running(true), Nobody, 1, {StateRef, CallRef(0)}))
  {
    StartIsReachable();
    EndNext(0);
    EndNext(1);
    EndNext(2);
    assert PumpRefs(3, 3) == {};
    ReachesNext(NEW_WORLD, Ending(3), CallTakesCore(0));
    var w := Do(Ending(3), CallTakesCore(0));
    assert w.refs == {StateRef, CallRef(0)};
    ReachesNext(NEW_WORLD, w, ShutdownCalled);
  }

  lemma ShutdownRuns()
    ensures Reaches(NEW_WORLD, Closing(Draining, PumpsGone, 0, {StateRef, CallRef(0), HolderRef}))
  {
    PumpsEnd();
    var refs := {StateRef, CallRef(0), HolderRef};
    ReachesNext(NEW_WORLD, Closing(Running(true), Nobody, 1, {StateRef, CallRef(0)}), ShutdownLocks);
    ReachesNext(NEW_WORLD, Closing(Running(true), Entering(false), 0, {StateRef, CallRef(0)}), LookAtState);
    assert {StateRef, CallRef(0)} + {HolderRef} == refs;
    ReachesNext(NEW_WORLD, Closing(Draining, Initiated(true), 0, refs), AfterInitiate);
    ReachesNext(NEW_WORLD, Closing(Draining, AwaitingPumps, 0, refs), SeePumpsGone);
  }

  lemma FinalizerRetries()
    ensures Reaches(NEW_WORLD, Closing(Finalized, Retrying, 0, {CallRef(0), HolderRef}))
  {
    ShutdownRuns();
    var refs := {StateRef, CallRef(0), HolderRef};
    ReachesNext(NEW_WORLD, Closing(Draining, PumpsGone, 0, refs), RecheckState);
    ReachesNext(NEW_WORLD, Closing(Draining, Committed, 0, refs), CommitFinalize);
    assert refs - {StateRef} == {CallRef(0), HolderRef};
    ReachesNext(NEW_WORLD, Closing(Finalized, Unwrapping, 0, {CallRef(0), HolderRef}), UnwrapFails);
  }

  /** Force-closing under a finalizer that has found another reference: it gives up, and calls get the core again. */
  lemma RetryingRevives(w: World) returns (revived: World)
    requires w.holder.Retrying? && w.ws.Finalized? && Enabled(w, FreeTake) && CallRef(1) !in w.refs
    ensures Reaches(Do(w, FreeTake), revived)
    ensures revived.freeTaken && revived.ws.Draining? && Enabled(revived, CallTakesCore(1))
  {
    var closed := Do(w, FreeTake);
    Runs.ReachesItself(Moves, closed);
    ReachesNext(closed, closed, FreeDone);
    var released := Do(closed, FreeDone);
    RetryingGivesUp(closed, released);
    revived := Do(released, GiveUp);
  }

  /**
   A shutdown's finalizer waits for a call's reference, `free` force-closes the worker, and the finalizer
   then gives up: the freed worker is draining again and hands out its core to the next caller.
   */
  lemma ForceCloseCanBeRevived() returns (freed: World, revived: World)
    ensures Reaches(NEW_WORLD, freed) && Enabled(freed, FreeTake) && freed.ws.Finalized?
    ensures Reaches(Do(freed, FreeTake), revived)
    ensures revived.freeTaken && revived.ws.Draining? && Enabled(revived, CallTakesCore(1))
  {
    FinalizerRetries();
    freed := Closing(Finalized, Retrying, 0, {CallRef(0), HolderRef});
    revived := RetryingRevives(freed);
  }

  // ---------------------------------------------------------------------------------------------
  // The entry as the source updates it

  /** `core` names the Core worker the state holds. */
  datatype EntryState = EntryRunning(core: nat, started: bool) | EntryDraining(core: nat) | EntryFinalized

  function Shape(s: EntryState): WorkerState {
    match s
    case EntryRunning(_, started) => Running(started)
    case EntryDraining(_) => Draining
    case EntryFinalized => Finalized
  }

  class AbortHandle {
    var aborted: bool

    constructor ()
      ensures !aborted
    {
      aborted := false;
    }

    method Abort()
      modifies this
      ensures aborted
    {
      aborted := true;
    }
  }

  class WorkerEntry {
    var state: EntryState
    var livePumps: nat
    var pumps: seq<AbortHandle>

    constructor (core: nat)
      ensures state == EntryRunning(core, false) && livePumps == 0 && pumps == []
    {
      state, livePumps, pumps := EntryRunning(core, false), 0, [];
    }

    method Core() returns (r: Result<nat>)
      ensures r == if state.EntryFinalized? then Err(WorkerShutDown) else Ok(state.core)
    {
      match state
      case EntryRunning(core, _) => r := Ok(core);
      case EntryDraining(core) => r := Ok(core);
      case EntryFinalized => r := Err(WorkerShutDown);
    }

    /** Idempotent; a first start records three fresh, unaborted pumps and never touches older ones. */
    method Start() returns (r: Result<()>)
      modifies this
      ensures old(state).EntryRunning? && !old(state).started ==>
        && r == Ok(()) && state == EntryRunning(old(state).core, true) && livePumps == 3
        && |pumps| == |old(pumps)| + 3 && pumps[..|old(pumps)|] == old(pumps)
        && forall k :: |old(pumps)| <= k < |pumps| ==> fresh(pumps[k]) && !pumps[k].aborted
      ensures !(old(state).EntryRunning? && !old(state).started) ==>
        state == old(state) && livePumps == old(livePumps) && pumps == old(pumps)
      ensures r.Err? <==> !old(state).EntryRunning?
      ensures forall w: World :: Enabled(w, StartBegin) && w.ws == Shape(old(state)) ==> Do(w, StartBegin).ws == Shape(state)
    {
      if !state.EntryRunning? {
        return Err(WorkerShutDown);
      }
      if state.started {
        return Ok(());
      }
      state := EntryRunning(state.core, true);
      livePumps := 3;
      for kind := 0 to 3
        invariant state == EntryRunning(old(state).core, true) && livePumps == 3
        invariant |pumps| == |old(pumps)| + kind && pumps[..|old(pumps)|] == old(pumps)
        invariant forall k :: |old(pumps)| <= k < |pumps| ==> fresh(pumps[k]) && !pumps[k].aborted
      {
        var handle := new AbortHandle();
        pumps := pumps + [handle];
      }
      r := Ok(());
    }

    /** Force-close: the state is stored as finalized and every recorded pump has been aborted. */
    method Free() returns (initiate: Option<nat>)
      modifies this, pumps
      ensures state == EntryFinalized && pumps == [] && livePumps == old(livePumps)
      ensures forall k :: 0 <= k < |old(pumps)| ==> old(pumps)[k].aborted
      ensures initiate == if old(state).EntryFinalized? then None else Some(old(state).core)
      ensures forall w: World :: Enabled(w, FreeTake) && w.ws == Shape(old(state)) ==> Do(w, FreeTake).ws == Shape(state)
    {
      initiate := if state.EntryFinalized? then None else Some(state.core);
      state := EntryFinalized;
      ghost var all := pumps;
      while pumps != []
        invariant |pumps| <= |all| && pumps == all[|all| - |pumps|..]
        invariant forall k :: 0 <= k < |all| - |pumps| ==> all[k].aborted
        invariant state == EntryFinalized && livePumps == old(livePumps)
        decreases |pumps|
      {
        assert pumps[0] == all[|all| - |pumps|];
        pumps[0].Abort();
        pumps := pumps[1..];
      }
    }

    /** Shutdown's critical section: the state drains and the caller learns whether pumps were ever spawned. */
    method BeginShutdown() returns (taken: Option<(nat, bool)>)
      modifies this`state
      ensures old(state).EntryFinalized? ==> taken == None && state == EntryFinalized
      ensures !old(state).EntryFinalized? ==>
        && state == EntryDraining(old(state).core)
        && taken == Some((old(state).core, old(state).EntryDraining? || old(state).started))
      ensures forall w: World :: Enabled(w, LookAtState) && w.holder == Entering(false) && w.ws == Shape(old(state)) ==>
        && Do(w, LookAtState).ws == Shape(state)
        && Do(w, LookAtState).holder == if taken == None then Nobody else Initiated(taken.value.1)
    {
      match state
      case EntryRunning(core, started) =>
        state := EntryDraining(core);
        taken := Some((core, started));
      case EntryDraining(core) =>
        taken := Some((core, true));
      case EntryFinalized =>
        taken := None;
    }
  }
}
