/**
 What `free_runtime` waits for: the task tracker, the requests it admits and the child processes
 those requests start.

 The tracker is a bare counter in the code. `World` steps it exactly where a token is created or
 dropped; the theorem is that the counter never forgets anything that still has to run.
 */
module Tracker {
  import opened Bridge

  /**
   Everything that can hold a tracker token. `ReqTracked` holds two for a moment: the reservation and
   the tracked future. `SrvMoving` is inside `Drop for EphemeralEntry`: the cleanup is scheduled, the
   entry's own reservation is not yet dropped.
   */
  datatype Unit =
    | ReqReserved
    | ReqRejected
    | ReqRegistered
    | ReqTracked
    | ReqRunning
    | ReqGone
    | SrvHeld
    | SrvMoving
    | SrvOwned
    | SrvReaped
    | CleanupScheduled(server: nat)
    | CleanupDone

  function Tokens(u: Unit): nat {
    match u
    case ReqTracked => 2
    case SrvMoving => 2
    case ReqGone => 0
    case SrvReaped => 0
    case CleanupDone => 0
    case _ => 1
  }

  datatype Stage = Open | Closing | Waiting | Returned

  datatype World = World(units: seq<Unit>, tracker: int, stage: Stage)

  datatype Step =
    | Reserve
    | Admit(i: nat)
    | DropRejected(i: nat)
    | Track(i: nat)
    | DropReservation(i: nat)
    | FinishRequest(i: nat)
    | StartServer(request: nat)
    | Reap(i: nat)
    | ScheduleCleanup(server: nat)
    | FinishCleanup(i: nat)
    | DropEntry(i: nat)
    | DropEntryReservation(i: nat)
    | FinishOwned(i: nat)
    | BeginFree
    | CloseTracker
    | WaitReturns

  predicate Is(w: World, i: nat, u: Unit) {
    i < |w.units| && w.units[i] == u
  }

  predicate IsServer(w: World, i: nat) {
    i < |w.units| && (w.units[i].SrvHeld? || w.units[i].SrvMoving? || w.units[i].SrvOwned? || w.units[i].SrvReaped?)
  }

  /** Someone who may still hand an entry back: a running request, or the free call itself before the runtime closes. */
  predicate MaySchedule(w: World) {
    w.stage == Open || ReqRunning in w.units
  }

  predicate Enabled(w: World, step: Step) {
    match step
    case Reserve => true
    case Admit(i) => Is(w, i, ReqReserved)
    case DropRejected(i) => Is(w, i, ReqRejected)
    case Track(i) => Is(w, i, ReqRegistered)
    case DropReservation(i) => Is(w, i, ReqTracked)
    case FinishRequest(i) => Is(w, i, ReqRunning)
    case StartServer(r) => Is(w, r, ReqRunning)
    case Reap(i) => Is(w, i, SrvHeld)
    case ScheduleCleanup(s) => IsServer(w, s) && MaySchedule(w)
    case FinishCleanup(i) => i < |w.units| && w.units[i].CleanupScheduled? && !Is(w, w.units[i].server, SrvHeld)
    case DropEntry(i) => Is(w, i, SrvHeld)
    case DropEntryReservation(i) => Is(w, i, SrvMoving)
    case FinishOwned(i) => Is(w, i, SrvOwned)
    case BeginFree => w.stage == Open
    case CloseTracker => w.stage == Closing
    case WaitReturns => w.stage == Waiting && w.tracker == 0
  }

  function Become(w: World, i: nat, u: Unit, tokens: int): World
    requires i < |w.units|
  {
    w.(units := w.units[i := u], tracker := w.tracker + tokens)
  }

  function Add(w: World, u: Unit): World {
    w.(units := w.units + [u], tracker := w.tracker + 1)
  }

  /** Registration looks at `closed` under the pending lock, so it is one step. */
  function Do(w: World, step: Step): World
    requires Enabled(w, step)
  {
    match step
    case Reserve => Add(w, ReqReserved)
    case Admit(i) => Become(w, i, if w.stage == Open then ReqRegistered else ReqRejected, 0)
    case DropRejected(i) => Become(w, i, ReqGone, -1)
    case Track(i) => Become(w, i, ReqTracked, 1)
    case DropReservation(i) => Become(w, i, ReqRunning, -1)
    case FinishRequest(i) => Become(w, i, ReqGone, -1)
    case StartServer(_) => Add(w, SrvHeld)
    case Reap(i) => Become(w, i, SrvReaped, -1)
    case ScheduleCleanup(s) => Add(w, CleanupScheduled(s))
    case FinishCleanup(i) => Become(w, i, CleanupDone, -1)
    case DropEntry(i) => Become(w, i, SrvMoving, 1)
    case DropEntryReservation(i) => Become(w, i, SrvOwned, -1)
    case FinishOwned(i) => Become(w, i, SrvReaped, -1)
    case BeginFree => w.(stage := Closing)
    case CloseTracker => w.(stage := Waiting)
    case WaitReturns => w.(stage := Returned)
  }

  ghost predicate Linked(run: seq<World>, steps: seq<Step>, k: nat)
    requires k < |steps| && |run| == |steps| + 1
  {
    Enabled(run[k], steps[k]) && run[k + 1] == Do(run[k], steps[k])
  }

  ghost predicate IsRun(run: seq<World>, steps: seq<Step>) {
    |run| == |steps| + 1 && run[0] == World([], 0, Open) && forall k: nat :: k < |steps| ==> Linked(run, steps, k)
  }

  function TokensHeld(units: seq<Unit>): nat {
    if units == [] then 0 else TokensHeld(units[..|units| - 1]) + Tokens(units[|units| - 1])
  }

  lemma {:induction false} TokensAfterChange(units: seq<Unit>, i: nat, u: Unit)
    requires i < |units|
    ensures TokensHeld(units[i := u]) == TokensHeld(units) - Tokens(units[i]) + Tokens(u)
  {
    var n := |units| - 1;
    if i < n {
      TokensAfterChange(units[..n], i, u);
      assert units[i := u][..n] == units[..n][i := u];
    } else {
      assert units[i := u][..n] == units[..n];
    }
  }

  lemma {:induction false} NothingHeldIff(units: seq<Unit>)
    ensures TokensHeld(units) == 0 <==> forall i :: 0 <= i < |units| ==> Tokens(units[i]) == 0
  {
    if units != [] {
      NothingHeldIff(units[..|units| - 1]);
    }
  }

  /** The counter covers every reservation, unfinished request, live server and scheduled cleanup. */
  ghost predicate Covered(w: World) {
    w.tracker == TokensHeld(w.units)
  }

  lemma AddKeepsCovered(w: World, u: Unit)
    requires Covered(w) && Tokens(u) == 1
    ensures Covered(Add(w, u))
  {
    assert (w.units + [u])[..|w.units|] == w.units;
  }

  lemma BecomeKeepsCovered(w: World, i: nat, u: Unit, tokens: int)
    requires Covered(w) && i < |w.units| && tokens == Tokens(u) - Tokens(w.units[i])
    ensures Covered(Become(w, i, u, tokens))
  {
    TokensAfterChange(w.units, i, u);
  }

  lemma StepKeepsCovered(w: World, step: Step)
    requires Covered(w) && Enabled(w, step)
    ensures Covered(Do(w, step))
  {
    match step
    case Reserve => AddKeepsCovered(w, ReqReserved);
    case StartServer(_) => AddKeepsCovered(w, SrvHeld);
    case ScheduleCleanup(s) => AddKeepsCovered(w, CleanupScheduled(s));
    case Admit(i) => BecomeKeepsCovered(w, i, if w.stage == Open then ReqRegistered else ReqRejected, 0);
    case DropRejected(i) => BecomeKeepsCovered(w, i, ReqGone, -1);
    case Track(i) => BecomeKeepsCovered(w, i, ReqTracked, 1);
    case DropReservation(i) => BecomeKeepsCovered(w, i, ReqRunning, -1);
    case FinishRequest(i) => BecomeKeepsCovered(w, i, ReqGone, -1);
    case Reap(i) => BecomeKeepsCovered(w, i, SrvReaped, -1);
    case FinishCleanup(i) => BecomeKeepsCovered(w, i, CleanupDone, -1);
    case DropEntry(i) => BecomeKeepsCovered(w, i, SrvMoving, 1);
    case DropEntryReservation(i) => BecomeKeepsCovered(w, i, SrvOwned, -1);
    case FinishOwned(i) => BecomeKeepsCovered(w, i, SrvReaped, -1);
    case _ =>
  }

  lemma {:induction false} CounterCoversEverything(run: seq<World>, steps: seq<Step>, k: nat)
    requires IsRun(run, steps) && k < |run|
    ensures Covered(run[k])
    ensures run[k].tracker == 0 <==> forall i :: 0 <= i < |run[k].units| ==> Tokens(run[k].units[i]) == 0
  {
    if k > 0 {
      CounterCoversEverything(run, steps, k - 1);
      assert Linked(run, steps, k - 1);
      StepKeepsCovered(run[k - 1], steps[k - 1]);
    }
    NothingHeldIff(run[k].units);
  }

  /** Nothing runs and nothing is left to reap; at most a request is on its way to being rejected. */
  ghost predicate Settled(w: World) {
    w.stage == Returned && forall i :: 0 <= i < |w.units| ==>
      w.units[i].ReqReserved? || w.units[i].ReqRejected? || Tokens(w.units[i]) == 0
  }

  lemma SettledStays(w: World, step: Step)
    requires Settled(w) && Enabled(w, step)
    ensures Settled(Do(w, step))
    ensures step.Admit? ==> Do(w, step).units[step.i] == ReqRejected
    ensures !step.StartServer? && !step.Track? && !step.ScheduleCleanup?
  {
  }

  /**
   From the moment `free_runtime` returns: no request task runs, every server ever started has been
   reaped, every scheduled cleanup has ended, and each later request is rejected.
   */
  lemma {:induction false} FreeLeavesNothingRunning(run: seq<World>, steps: seq<Step>, at: nat, k: nat)
    requires IsRun(run, steps) && at < k < |run| && steps[at] == WaitReturns
    ensures Settled(run[k])
    ensures forall i :: 0 <= i < |run[k].units| ==>
      && !run[k].units[i].ReqRegistered? && !run[k].units[i].ReqTracked? && !run[k].units[i].ReqRunning?
      && (IsServer(run[k], i) ==> run[k].units[i] == SrvReaped)
      && !run[k].units[i].CleanupScheduled?
    ensures k < |steps| && steps[k].Admit? ==> Is(run[k + 1], steps[k].i, ReqRejected)
    decreases k
  {
    assert Linked(run, steps, k - 1);
    if k == at + 1 {
      CounterCoversEverything(run, steps, at);
    } else {
      FreeLeavesNothingRunning(run, steps, at, k - 1);
      SettledStays(run[k - 1], steps[k - 1]);
    }
    if k < |steps| {
      assert Linked(run, steps, k);
      SettledStays(run[k], steps[k]);
    }
  }

  lemma ServersStayServers(w: World, step: Step, s: nat)
    requires Enabled(w, step) && IsServer(w, s)
    ensures IsServer(Do(w, step), s)
  {
  }

  lemma {:induction false} WhenReturned(run: seq<World>, steps: seq<Step>, k: nat) returns (at: nat)
    requires IsRun(run, steps) && k < |run| && run[k].stage == Returned
    ensures at < k && steps[at] == WaitReturns
  {
    assert Linked(run, steps, k - 1);
    if run[k - 1].stage == Returned {
      at := WhenReturned(run, steps, k - 1);
    } else {
      at := k - 1;
    }
  }

  /** A server that has been started stays reapable: its unit moves only towards `SrvReaped`, and holds a token until then. */
  lemma {:induction false} StartedServersAreReaped(run: seq<World>, steps: seq<Step>, j: nat, k: nat, s: nat)
    requires IsRun(run, steps) && j <= k < |run| && IsServer(run[j], s)
    ensures IsServer(run[k], s)
    ensures run[k].stage == Returned ==> run[k].units[s] == SrvReaped
    decreases k
  {
    if j < k {
      StartedServersAreReaped(run, steps, j, k - 1, s);
      assert Linked(run, steps, k - 1);
      ServersStayServers(run[k - 1], steps[k - 1], s);
    }
    if run[k].stage == Returned {
      var at := WhenReturned(run, steps, k);
      FreeLeavesNothingRunning(run, steps, at, k);
    }
  }

  // ---------------------------------------------------------------------------------------------
  // Free gets there

  /** The most steps a unit still takes. */
  function StepsLeft(u: Unit): nat {
    match u
    case ReqReserved => 4
    case ReqRegistered | SrvHeld => 3
    case ReqTracked | SrvMoving => 2
    case ReqRejected | ReqRunning | SrvOwned | CleanupScheduled(_) => 1
    case ReqGone | SrvReaped | CleanupDone => 0
  }

  function AllStepsLeft(units: seq<Unit>): nat {
    if units == [] then 0 else AllStepsLeft(units[..|units| - 1]) + StepsLeft(units[|units| - 1])
  }

  function Work(w: World): nat {
    AllStepsLeft(w.units) + match w.stage case Open => 3 case Closing => 2 case Waiting => 1 case Returned => 0
  }

  datatype Family = Request | Server | Cleanup

  function FamilyOf(u: Unit): Family {
    match u
    case SrvHeld | SrvMoving | SrvOwned | SrvReaped => Server
    case CleanupScheduled(_) | CleanupDone => Cleanup
    case _ => Request
  }

  /** What the step brings into the world, if anything. */
  function Brings(step: Step): Option<Family> {
    match step
    case Reserve => Some(Request)
    case StartServer(_) => Some(Server)
    case ScheduleCleanup(_) => Some(Cleanup)
    case _ => None
  }

  function CountUnits(units: seq<Unit>, f: Family): nat {
    if units == [] then 0 else CountUnits(units[..|units| - 1], f) + if FamilyOf(units[|units| - 1]) == f then 1 else 0
  }

  function CountBrought(steps: seq<Step>, f: Family): nat {
    if steps == [] then 0 else CountBrought(steps[..|steps| - 1], f) + if Brings(steps[|steps| - 1]) == Some(f) then 1 else 0
  }

  lemma {:induction false} UnitMoves(units: seq<Unit>, i: nat, u: Unit, f: Family)
    requires i < |units| && FamilyOf(u) == FamilyOf(units[i])
    ensures AllStepsLeft(units[i := u]) == AllStepsLeft(units) - StepsLeft(units[i]) + StepsLeft(u)
    ensures CountUnits(units[i := u], f) == CountUnits(units, f)
  {
    var n := |units| - 1;
    if i < n {
      UnitMoves(units[..n], i, u, f);
      assert units[i := u][..n] == units[..n][i := u];
    } else {
      assert units[i := u][..n] == units[..n];
    }
  }

  lemma UnitJoins(w: World, u: Unit, f: Family)
    ensures CountUnits(Add(w, u).units, f) == CountUnits(w.units, f) + if FamilyOf(u) == f then 1 else 0
    ensures Work(Add(w, u)) == Work(w) + StepsLeft(u)
  {
    assert Add(w, u).units[..|w.units|] == w.units;
  }

  lemma UnitMovesOn(w: World, i: nat, u: Unit, tokens: int, f: Family)
    requires i < |w.units| && FamilyOf(u) == FamilyOf(w.units[i]) && StepsLeft(u) < StepsLeft(w.units[i])
    ensures CountUnits(Become(w, i, u, tokens).units, f) == CountUnits(w.units, f)
    ensures Work(Become(w, i, u, tokens)) < Work(w)
  {
    UnitMoves(w.units, i, u, f);
  }

  ghost predicate UsesWork(w: World, step: Step, f: Family)
    requires Enabled(w, step)
  {
    && CountUnits(Do(w, step).units, f) == CountUnits(w.units, f) + (if Brings(step) == Some(f) then 1 else 0)
    && if Brings(step) == None then Work(Do(w, step)) < Work(w) else Work(Do(w, step)) <= Work(w) + 4
  }

  lemma StageUsesWork(w: World, step: Step, f: Family)
    requires Enabled(w, step) && (step.BeginFree? || step.CloseTracker? || step.WaitReturns?)
    ensures UsesWork(w, step, f)
  {
    assert Do(w, step).units == w.units;
  }

  lemma ArrivalUsesWork(w: World, step: Step, u: Unit, f: Family)
    requires Enabled(w, step) && Brings(step) == Some(FamilyOf(u)) && Do(w, step) == Add(w, u) && StepsLeft(u) <= 4
    ensures UsesWork(w, step, f)
  {
    UnitJoins(w, u, f);
  }

  lemma RequestUsesWork(w: World, step: Step, f: Family)
    requires Enabled(w, step)
    requires step.Admit? || step.DropRejected? || step.Track? || step.DropReservation? || step.FinishRequest?
    ensures UsesWork(w, step, f)
  {
    match step
    case Admit(i) => UnitMovesOn(w, i, if w.stage == Open then ReqRegistered else ReqRejected, 0, f);
    case DropRejected(i) => UnitMovesOn(w, i, ReqGone, -1, f);
    case Track(i) => UnitMovesOn(w, i, ReqTracked, 1, f);
    case DropReservation(i) => UnitMovesOn(w, i, ReqRunning, -1, f);
    case FinishRequest(i) => UnitMovesOn(w, i, ReqGone, -1, f);
  }

  lemma ServerUsesWork(w: World, step: Step, f: Family)
    requires Enabled(w, step)
    requires step.Reap? || step.FinishCleanup? || step.DropEntry? || step.DropEntryReservation? || step.FinishOwned?
    ensures UsesWork(w, step, f)
  {
    match step
    case Reap(i) => UnitMovesOn(w, i, SrvReaped, -1, f);
    case FinishCleanup(i) => UnitMovesOn(w, i, CleanupDone, -1, f);
    case DropEntry(i) => UnitMovesOn(w, i, SrvMoving, 1, f);
    case DropEntryReservation(i) => UnitMovesOn(w, i, SrvOwned, -1, f);
    case FinishOwned(i) => UnitMovesOn(w, i, SrvReaped, -1, f);
  }

  /** A step brings in one unit of its family, or is one of the steps that were left. */
  lemma StepUsesWork(w: World, step: Step, f: Family)
    requires Enabled(w, step)
    ensures UsesWork(w, step, f)
  {
    match step
    case Admit(_) | DropRejected(_) | Track(_) | DropReservation(_) | FinishRequest(_) => RequestUsesWork(w, step, f);
    case Reap(_) | FinishCleanup(_) | DropEntry(_) | DropEntryReservation(_) | FinishOwned(_) => ServerUsesWork(w, step, f);
    case Reserve => ArrivalUsesWork(w, step, ReqReserved, f);
    case StartServer(_) => ArrivalUsesWork(w, step, SrvHeld, f);
    case ScheduleCleanup(s) => ArrivalUsesWork(w, step, CleanupScheduled(s), f);
    case _ => StageUsesWork(w, step, f);
  }

  /** Every request, server and cleanup is there, and the steps taken for them and for the free are bounded by their number. */
  lemma {:induction false} WorkIsBounded(run: seq<World>, steps: seq<Step>, k: nat)
    requires IsRun(run, steps) && k < |run|
    ensures forall f :: CountUnits(run[k].units, f) == CountBrought(steps[..k], f)
    ensures var brought := CountBrought(steps[..k], Request) + CountBrought(steps[..k], Server) + CountBrought(steps[..k], Cleanup);
            k + Work(run[k]) <= 3 + 5 * brought
  {
    if k > 0 {
      WorkIsBounded(run, steps, k - 1);
      assert Linked(run, steps, k - 1);
      assert steps[..k][..k - 1] == steps[..k - 1];
      forall f ensures CountUnits(run[k].units, f) == CountBrought(steps[..k], f) {
        StepUsesWork(run[k - 1], steps[k - 1], f);
      }
      StepUsesWork(run[k - 1], steps[k - 1], Request);
    }
  }

  /** Until `free_runtime` has returned something it waits for can take one of its remaining steps. */
  lemma FreeNeverBlocks(w: World) returns (step: Step)
    requires Covered(w) && (w.stage == Closing || w.stage == Waiting)
    ensures Enabled(w, step) && Brings(step) == None && Work(Do(w, step)) < Work(w)
  {
    NothingHeldIff(w.units);
    if w.stage == Closing {
      step := CloseTracker;
    } else if w.tracker == 0 {
      step := WaitReturns;
    } else {
      var i :| 0 <= i < |w.units| && Tokens(w.units[i]) != 0;
      step := match w.units[i]
              case ReqReserved => Admit(i)
              case ReqRejected => DropRejected(i)
              case ReqRegistered => Track(i)
              case ReqTracked => DropReservation(i)
              case ReqRunning => FinishRequest(i)
              case SrvHeld => Reap(i)
              case SrvMoving => DropEntryReservation(i)
              case SrvOwned => FinishOwned(i)
              case CleanupScheduled(s) => if Is(w, s, SrvHeld) then Reap(s) else FinishCleanup(i)
              case _ => CloseTracker;
    }
    StepUsesWork(w, step, Request);
  }

  // ---------------------------------------------------------------------------------------------
  // The entry as the source updates it

  class TaskTracker {
    var count: nat
    var closed: bool

    constructor ()
      ensures count == 0 && !closed
    {
      count, closed := 0, false;
    }
  }

  class EphemeralEntry {
    const tasks: TaskTracker
    /** The child with its reservation, until somebody has shut it down. */
    var server: Option<nat>
    /** Children handed to a cleanup task by value. */
    var moved: seq<nat>

    /** A live child is covered by its reservation. */
    ghost predicate Valid()
      reads this, tasks
    {
      tasks.count >= (if server.Some? then 1 else 0) + |moved|
    }

    constructor (child: nat, tasks: TaskTracker)
      modifies tasks
      ensures Valid() && server == Some(child) && moved == []
      ensures this.tasks == tasks && tasks.count == old(tasks.count) + 1
    {
      this.tasks := tasks;
      server, moved := Some(child), [];
      new;
      tasks.count := tasks.count + 1;
    }

    /** Reaps the child if it is still here; every later shutdown finds nothing to do. */
    method Shutdown() returns (reaped: Option<nat>)
      requires Valid()
      modifies this`server, tasks`count
      ensures Valid() && reaped == old(server) && server == None
      ensures tasks.count == old(tasks.count) - if old(server).Some? then 1 else 0
    {
      reaped := server;
      server := None;
      if reaped.Some? {
        tasks.count := tasks.count - 1;
      }
    }

    /** Last reference gone: the cleanup is spawned before the reservation drops, so the count never dips. */
    method DropLast() returns (lowest: nat)
      requires Valid()
      modifies this, tasks`count
      ensures Valid() && server == None && moved == old(moved) + if old(server).Some? then [old(server).value] else []
      ensures tasks.count == old(tasks.count) == lowest
    {
      lowest := tasks.count;
      if server.Some? {
        moved := moved + [server.value];
        tasks.count := tasks.count + 1;
        server := None;
        lowest := Min(lowest, tasks.count);
        tasks.count := tasks.count - 1;
        lowest := Min(lowest, tasks.count);
      }
    }
  }
}
