/**
 The JVM-driven slot supplier: permits, pressure gate and ramp, and the wait protocol around them.

 One supplier has one slot kind and one gate bit; releases of other kinds reach it only as extra
 notifications. Time is a nondecreasing counter.
 */
module Slots {
  import opened Bridge
  import Runs

  // ---------------------------------------------------------------------------------------------
  // Which configurations exist

  datatype Limits = Limits(minimum: nat, maximum: nat, rampMillis: nat)

  datatype Config = Config(minimum: nat, maximum: nat, ramp: nat, sticky: bool)

  datatype Supplier = FixedSize(slots: nat) | CoreResourceBased(limits: Limits) | Jvm(config: Config)

  const MAX_MILLIS: nat := 0x7FFF_FFFF_FFFF_FFFF

  /** `slot` in worker.rs: both, neither or one of a fixed count and resource limits. */
  function SlotOptions(fixed: Option<nat>, limits: Option<Limits>, jvm: bool, sticky: bool): Result<Supplier> {
    match limits
    case Some(l) =>
      if fixed.Some? then Err(InvalidArgument)
      else if l.maximum == 0 || l.minimum > l.maximum then Err(InvalidArgument)
      else if l.rampMillis > MAX_MILLIS then Err(InvalidArgument)
      else if jvm then Ok(Jvm(Config(l.minimum, l.maximum, l.rampMillis, sticky)))
      else Ok(CoreResourceBased(l))
    case None =>
      if fixed == Some(0) then Err(InvalidArgument)
      else Ok(FixedSize(if fixed.Some? then fixed.value else 100))
  }

  /** `fixed` and `limits` are indexed by kind: workflow, activity, local activity, nexus. */
  datatype WorkerOptions = WorkerOptions(
    noWorkflows: bool, maxCachedWorkflows: nat, jvm: bool, targetsValid: bool,
    fixed: seq<Option<nat>>, limits: seq<Option<Limits>>)

  predicate CachesWorkflows(o: WorkerOptions) {
    !o.noWorkflows && o.maxCachedWorkflows > 0
  }

  function WorkflowLimit(o: WorkerOptions): nat
    requires |o.fixed| == |o.limits| == 4
  {
    if o.limits[0].Some? then o.limits[0].value.maximum
    else if o.fixed[0].Some? then o.fixed[0].value
    else 100
  }

  function Tuner(o: WorkerOptions): Result<seq<Supplier>>
    requires |o.fixed| == |o.limits| == 4
  {
    if CachesWorkflows(o) && WorkflowLimit(o) < 2 then Err(InvalidArgument)
    else if !o.targetsValid then Err(InvalidArgument)
    else
      var workflow := SlotOptions(o.fixed[0], o.limits[0], o.jvm, CachesWorkflows(o));
      var activity := SlotOptions(o.fixed[1], o.limits[1], o.jvm, false);
      var local := SlotOptions(o.fixed[2], o.limits[2], o.jvm, false);
      var nexus := SlotOptions(o.fixed[3], o.limits[3], o.jvm, false);
      if workflow.Err? then Err(workflow.error)
      else if activity.Err? then Err(activity.error)
      else if local.Err? then Err(local.error)
      else if nexus.Err? then Err(nexus.error)
      else Ok([workflow.value, activity.value, local.value, nexus.value])
  }

  predicate WellFormed(c: Config) {
    c.minimum <= c.maximum && 1 <= c.maximum && (c.sticky ==> 2 <= c.maximum)
  }

  /** A fixed count and resource limits exclude each other, and each must leave room for a slot. */
  predicate Acceptable(fixed: Option<nat>, limits: Option<Limits>) {
    && (fixed.Some? ==> limits.None? && fixed.value > 0)
    && (limits.Some? ==>
          && 1 <= limits.value.maximum && limits.value.minimum <= limits.value.maximum
          && limits.value.rampMillis <= MAX_MILLIS)
  }

  lemma SlotOptionsAcceptIff(fixed: Option<nat>, limits: Option<Limits>, jvm: bool, sticky: bool)
    ensures SlotOptions(fixed, limits, jvm, sticky).Ok? <==> Acceptable(fixed, limits)
    ensures SlotOptions(fixed, limits, jvm, sticky).Err? ==> SlotOptions(fixed, limits, jvm, sticky).error == InvalidArgument
  {
  }

  /** The tuner refuses a worker exactly for a slot kind that is unacceptable, too few workflow slots, or bad targets. */
  lemma TunerAcceptsIff(o: WorkerOptions)
    requires |o.fixed| == |o.limits| == 4
    ensures Tuner(o).Ok? <==>
      && o.targetsValid
      && (!o.noWorkflows && o.maxCachedWorkflows > 0 ==>
            && (o.limits[0].Some? ==> o.limits[0].value.maximum >= 2)
            && (o.fixed[0].Some? && o.limits[0].None? ==> o.fixed[0].value >= 2))
      && forall kind :: 0 <= kind < 4 ==> Acceptable(o.fixed[kind], o.limits[kind])
    ensures Tuner(o).Err? ==> Tuner(o).error == InvalidArgument
  {
    forall kind | 0 <= kind < 4
      ensures Acceptable(o.fixed[kind], o.limits[kind])
              <==> SlotOptions(o.fixed[kind], o.limits[kind], o.jvm, kind == 0 && CachesWorkflows(o)).Ok?
    {
      SlotOptionsAcceptIff(o.fixed[kind], o.limits[kind], o.jvm, kind == 0 && CachesWorkflows(o));
    }
  }

  /** Limits make a resource-based supplier, JVM-driven or Core's own; every JVM supplier can serve its queues, and only workflow slots are sticky. */
  lemma TunerAcceptsOnlyWellFormed(o: WorkerOptions, kind: nat)
    requires |o.fixed| == |o.limits| == 4 && kind < 4 && Tuner(o).Ok?
    ensures match Tuner(o).value[kind]
            case Jvm(c) =>
              && o.jvm && WellFormed(c) && (c.sticky <==> kind == 0 && !o.noWorkflows && o.maxCachedWorkflows > 0)
              && o.limits[kind] == Some(Limits(c.minimum, c.maximum, c.ramp)) && o.fixed[kind] == None
            case CoreResourceBased(l) => !o.jvm && o.limits[kind] == Some(l) && o.fixed[kind] == None
            case FixedSize(n) => n > 0 && o.limits[kind] == None && (o.fixed[kind] == Some(n) || (o.fixed[kind] == None && n == 100))
  {
    var suppliers := [SlotOptions(o.fixed[0], o.limits[0], o.jvm, CachesWorkflows(o)),
                      SlotOptions(o.fixed[1], o.limits[1], o.jvm, false),
                      SlotOptions(o.fixed[2], o.limits[2], o.jvm, false),
                      SlotOptions(o.fixed[3], o.limits[3], o.jvm, false)];
    assert suppliers[kind] == Ok(Tuner(o).value[kind]);
  }

  // ---------------------------------------------------------------------------------------------
  // One attempt

  /** `issued` has one count per queue: 0 normal, 1 sticky. */
  datatype State = State(issued: seq<nat>, last: nat)

  function Total(s: State): nat
    requires |s.issued| == 2
  {
    s.issued[0] + s.issued[1]
  }

  function Elapsed(now: nat, since: nat): nat {
    if now < since then 0 else now - since
  }

  function TryReserve(c: Config, s: State, allowed: bool, queue: nat, now: nat): Option<State>
    requires |s.issued| == 2 && queue < 2
  {
    var required := Total(s) < c.minimum || (c.sticky && s.issued[queue] == 0);
    if Total(s) >= c.maximum then None
    else if c.sticky && s.issued[1 - queue] == 0 && Total(s) + 1 == c.maximum then None
    else if !required && (!allowed || Elapsed(now, s.last) < c.ramp) then None
    else Some(State(s.issued[queue := s.issued[queue] + 1], now))
  }

  predicate QueueExists(c: Config, queue: nat) {
    queue == 0 || (queue == 1 && c.sticky)
  }

  /** No more than the maximum; and a sticky supplier always leaves the other queue room for one. */
  predicate Bounded(c: Config, s: State) {
    && |s.issued| == 2 && Total(s) <= c.maximum
    && (if c.sticky then s.issued[0] < c.maximum && s.issued[1] < c.maximum else s.issued[1] == 0)
  }

  lemma ReservingKeepsBounded(c: Config, s: State, allowed: bool, queue: nat, now: nat)
    requires WellFormed(c) && Bounded(c, s) && QueueExists(c, queue) && TryReserve(c, s, allowed, queue, now).Some?
    ensures Bounded(c, TryReserve(c, s, allowed, queue, now).value)
  {
  }

  /** Neither pressure nor ramp can keep a sticky supplier's empty queue waiting. */
  lemma EmptyQueueIsAlwaysServed(c: Config, s: State, allowed: bool, queue: nat, now: nat)
    requires WellFormed(c) && Bounded(c, s) && c.sticky && queue < 2 && s.issued[queue] == 0
    ensures TryReserve(c, s, allowed, queue, now).Some?
  {
  }

  /** The tuner's check is needed: a sticky supplier with a maximum of one never grants anything. */
  lemma StickyNeedsTwo(c: Config, allowed: bool, queue: nat, now: nat, last: nat)
    requires c.sticky && queue < 2 && c.minimum <= c.maximum
    ensures TryReserve(c, State([0, 0], last), allowed, queue, now).Some? <==> 2 <= c.maximum
  {
  }

  /** Another caller's reservation never turns a refusal into a grant, at whatever time both are judged. */
  lemma ReservationsNeverEnable(c: Config, s: State, allowed: bool, q: nat, at: nat, other: nat, now: nat)
    requires |s.issued| == 2 && q < 2 && other < 2 && s.last <= now
    requires TryReserve(c, s, allowed, q, at) == None && TryReserve(c, s, allowed, other, now).Some?
    ensures TryReserve(c, TryReserve(c, s, allowed, other, now).value, allowed, q, at) == None
  {
  }

  // ---------------------------------------------------------------------------------------------
  // All callers, all interleavings

  /** A permit being dropped passes through its three effects one at a time. */
  datatype PermitPhase = Held | Decremented | Uncounted | Released

  datatype Permit = Permit(queue: nat, phase: PermitPhase)

  /** `at` is the clock of the refused attempt; `timer` the armed ramp deadline, if any. */
  datatype WaitPhase =
    | Looping
    | Registered
    | Refused(at: nat)
    | Parked(at: nat, timer: Option<nat>)
    | Gone

  datatype Waiter = Waiter(queue: nat, phase: WaitPhase, notified: bool)

  datatype World = World(
    c: Config,
    s: State,
    allowed: bool,
    clock: nat,
    reserved: int,
    pending: int,
    permits: seq<Permit>,
    waiters: seq<Waiter>,
    updating: nat)

  datatype Step =
    | Tick(millis: nat)
    | StoreAllowed(allowed: bool)
    | UpdateNotify
    | ForeignNotify
    | TryDirect(queue: nat)
    | Decrement(p: nat)
    | Uncount(p: nat)
    | ReleaseNotify(p: nat)
    | EnterWait(queue: nat)
    | Register(i: nat)
    | TryWaiting(i: nat)
    | Park(i: nat)
    | Wake(i: nat)
    | CancelWait(i: nat)

  predicate WaiterIn(w: World, i: nat) {
    i < |w.waiters| && !w.waiters[i].phase.Gone?
  }

  predicate TimerFired(w: World, phase: WaitPhase) {
    phase.Parked? && phase.timer.Some? && phase.timer.value <= w.clock
  }

  predicate Enabled(w: World, step: Step) {
    match step
    case UpdateNotify => w.updating > 0
    case TryDirect(q) => QueueExists(w.c, q)
    case Decrement(p) => p < |w.permits| && w.permits[p].phase.Held?
    case Uncount(p) => p < |w.permits| && w.permits[p].phase.Decremented?
    case ReleaseNotify(p) => p < |w.permits| && w.permits[p].phase.Uncounted?
    case EnterWait(q) => QueueExists(w.c, q)
    case Register(i) => WaiterIn(w, i) && w.waiters[i].phase.Looping?
    case TryWaiting(i) => WaiterIn(w, i) && w.waiters[i].phase.Registered?
    case Park(i) => WaiterIn(w, i) && w.waiters[i].phase.Refused?
    case Wake(i) =>
      WaiterIn(w, i) && w.waiters[i].phase.Parked? && (w.waiters[i].notified || TimerFired(w, w.waiters[i].phase))
    case CancelWait(i) => WaiterIn(w, i)
    case _ => true
  }

  /** `notify_waiters` reaches every registered waiter, parked or not, and stores nothing for later ones. */
  function NotifyAll(w: World): World {
    w.(waiters := seq(|w.waiters|, i requires 0 <= i < |w.waiters| =>
         if w.waiters[i].phase.Looping? || w.waiters[i].phase.Gone? then w.waiters[i]
         else w.waiters[i].(notified := true)))
  }

  function SetWaiter(w: World, i: nat, phase: WaitPhase, notified: bool): World
    requires i < |w.waiters|
  {
    w.(waiters := w.waiters[i := Waiter(w.waiters[i].queue, phase, notified)])
  }

  function SetPermit(w: World, p: nat, phase: PermitPhase): World
    requires p < |w.permits|
  {
    w.(permits := w.permits[p := w.permits[p].(phase := phase)])
  }

  function Grant(w: World, queue: nat, s: State): World {
    w.(s := s, reserved := w.reserved + 1, permits := w.permits + [Permit(queue, Held)])
  }

  predicate Shaped(w: World) {
    && |w.s.issued| == 2
    && (forall p :: 0 <= p < |w.permits| ==> w.permits[p].queue < 2)
    && (forall i :: 0 <= i < |w.waiters| ==> w.waiters[i].queue < 2)
  }

  function Attempt(w: World, queue: nat): Option<State>
    requires Shaped(w) && queue < 2
  {
    TryReserve(w.c, w.s, w.allowed, queue, w.clock)
  }

  function Do(w: World, step: Step): World
    requires Shaped(w) && Enabled(w, step)
  {
    match step
    case Tick(millis) => w.(clock := w.clock + millis)
    case StoreAllowed(allowed) => w.(allowed := allowed, updating := w.updating + 1)
    case UpdateNotify => NotifyAll(w.(updating := w.updating - 1))
    case ForeignNotify => NotifyAll(w)
    case TryDirect(q) => if Attempt(w, q).Some? then Grant(w, q, Attempt(w, q).value) else w
    case Decrement(p) =>
      var q := w.permits[p].queue;
      SetPermit(w, p, Decremented).(s := w.s.(issued := w.s.issued[q := if w.s.issued[q] > 0 then w.s.issued[q] - 1 else 0]))
    case Uncount(p) => SetPermit(w, p, Uncounted).(reserved := w.reserved - 1)
    case ReleaseNotify(p) => NotifyAll(SetPermit(w, p, Released))
    case EnterWait(q) => w.(pending := w.pending + 1, waiters := w.waiters + [Waiter(q, Looping, false)])
    case Register(i) => SetWaiter(w, i, Registered, false)
    case TryWaiting(i) =>
      var q := w.waiters[i].queue;
      if Attempt(w, q).Some?
      then SetWaiter(Grant(w, q, Attempt(w, q).value), i, Gone, false).(pending := w.pending - 1)
      else SetWaiter(w, i, Refused(w.clock), w.waiters[i].notified)
    case Park(i) =>
      var elapsed := Elapsed(w.clock, w.s.last);
      var timer := if elapsed < w.c.ramp then Some(w.clock + (w.c.ramp - elapsed)) else None;
      SetWaiter(w, i, Parked(w.waiters[i].phase.at, timer), w.waiters[i].notified)
    case Wake(i) => SetWaiter(w, i, Looping, false)
    case CancelWait(i) => SetWaiter(w, i, Gone, false).(pending := w.pending - 1)
  }

  function NewWorld(c: Config): World {
    World(c, State([0, 0], 0), false, 0, 0, 0, [], [], 0)
  }

  ghost predicate Linked(run: seq<World>, steps: seq<Step>, k: nat)
    requires k < |steps| && |run| == |steps| + 1
  {
    Shaped(run[k]) && Enabled(run[k], steps[k]) && run[k + 1] == Do(run[k], steps[k])
  }

  ghost predicate IsRun(c: Config, run: seq<World>, steps: seq<Step>) {
    |run| == |steps| + 1 && run[0] == NewWorld(c) && forall k: nat :: k < |steps| ==> Linked(run, steps, k)
  }

  // ---------------------------------------------------------------------------------------------
  // Counters and bounds

  function Bit(b: bool): nat {
    if b then 1 else 0
  }

  function CountHeld(permits: seq<Permit>, queue: nat): nat {
    if permits == [] then 0
    else CountHeld(permits[..|permits| - 1], queue) + Bit(permits[|permits| - 1].phase.Held? && permits[|permits| - 1].queue == queue)
  }

  function CountHalfway(permits: seq<Permit>): nat {
    if permits == [] then 0
    else CountHalfway(permits[..|permits| - 1]) + Bit(permits[|permits| - 1].phase.Decremented?)
  }

  function CountWaiting(waiters: seq<Waiter>): nat {
    if waiters == [] then 0
    else CountWaiting(waiters[..|waiters| - 1]) + Bit(!waiters[|waiters| - 1].phase.Gone?)
  }

  lemma {:induction false} PermitChange(permits: seq<Permit>, p: nat, changed: Permit, q: nat)
    requires p < |permits|
    ensures CountHeld(permits[p := changed], q)
         == CountHeld(permits, q) - Bit(permits[p].phase.Held? && permits[p].queue == q) + Bit(changed.phase.Held? && changed.queue == q)
    ensures CountHalfway(permits[p := changed])
         == CountHalfway(permits) - Bit(permits[p].phase.Decremented?) + Bit(changed.phase.Decremented?)
  {
    var n := |permits| - 1;
    if p < n {
      PermitChange(permits[..n], p, changed, q);
      assert permits[p := changed][..n] == permits[..n][p := changed];
    } else {
      assert permits[p := changed][..n] == permits[..n];
    }
  }

  lemma {:induction false} WaiterChange(waiters: seq<Waiter>, i: nat, changed: Waiter)
    requires i < |waiters|
    ensures CountWaiting(waiters[i := changed])
         == CountWaiting(waiters) - Bit(!waiters[i].phase.Gone?) + Bit(!changed.phase.Gone?)
  {
    var n := |waiters| - 1;
    if i < n {
      WaiterChange(waiters[..n], i, changed);
      assert waiters[i := changed][..n] == waiters[..n][i := changed];
    } else {
      assert waiters[i := changed][..n] == waiters[..n];
    }
  }

  lemma {:induction false} NotifyKeepsCount(a: seq<Waiter>, b: seq<Waiter>)
    requires |a| == |b| && forall i :: 0 <= i < |a| ==> a[i].phase == b[i].phase
    ensures CountWaiting(a) == CountWaiting(b)
  {
    if a != [] { NotifyKeepsCount(a[..|a| - 1], b[..|b| - 1]); }
  }

  /** Issued counts are the held permits; `reserved` also counts permits halfway through their drop. */
  ghost predicate Counted(w: World)
    requires Shaped(w)
  {
    && w.s.issued[0] == CountHeld(w.permits, 0) && w.s.issued[1] == CountHeld(w.permits, 1)
    && w.reserved == Total(w.s) + CountHalfway(w.permits)
    && w.pending == CountWaiting(w.waiters)
  }

  lemma PermitJoins(permits: seq<Permit>, p: Permit, q: nat)
    ensures CountHeld(permits + [p], q) == CountHeld(permits, q) + Bit(p.phase.Held? && p.queue == q)
    ensures CountHalfway(permits + [p]) == CountHalfway(permits) + Bit(p.phase.Decremented?)
  {
    assert (permits + [p])[..|permits|] == permits;
  }

  lemma GrantKeepsCounted(w: World, queue: nat)
    requires Shaped(w) && Counted(w) && queue < 2 && Attempt(w, queue).Some?
    ensures Shaped(Grant(w, queue, Attempt(w, queue).value)) && Counted(Grant(w, queue, Attempt(w, queue).value))
  {
    PermitJoins(w.permits, Permit(queue, Held), 0);
    PermitJoins(w.permits, Permit(queue, Held), 1);
  }

  lemma NotifyKeepsCounted(w: World)
    requires Shaped(w) && Counted(w)
    ensures Shaped(NotifyAll(w)) && Counted(NotifyAll(w))
  {
    NotifyKeepsCount(w.waiters, NotifyAll(w).waiters);
  }

  lemma WaiterJoins(waiters: seq<Waiter>, x: Waiter)
    ensures CountWaiting(waiters + [x]) == CountWaiting(waiters) + Bit(!x.phase.Gone?)
  {
    assert (waiters + [x])[..|waiters|] == waiters;
  }

  lemma EnterKeepsCounted(w: World, queue: nat)
    requires Shaped(w) && Counted(w) && queue < 2
    ensures var w' := w.(pending := w.pending + 1, waiters := w.waiters + [Waiter(queue, Looping, false)]);
            Shaped(w') && Counted(w')
  {
    WaiterJoins(w.waiters, Waiter(queue, Looping, false));
  }

  /** The steps of a waiter in its loop. */
  predicate WaitStep(step: Step) {
    step.EnterWait? || step.Register? || step.TryWaiting? || step.Park? || step.Wake? || step.CancelWait?
  }

  lemma SetWaiterKeepsCounted(w: World, i: nat, phase: WaitPhase, notified: bool)
    requires Shaped(w) && Counted(w) && WaiterIn(w, i)
    ensures var w' := SetWaiter(w, i, phase, notified).(pending := w.pending - Bit(phase.Gone?));
            Shaped(w') && Counted(w')
  {
    WaiterChange(w.waiters, i, Waiter(w.waiters[i].queue, phase, notified));
  }

  lemma WaiterStepKeepsCounted(w: World, step: Step)
    requires Shaped(w) && Counted(w) && Enabled(w, step)
    requires step.Register? || step.Park? || step.Wake? || step.CancelWait?
    ensures Shaped(Do(w, step)) && Counted(Do(w, step))
  {
    var x := Do(w, step).waiters[step.i];
    SetWaiterKeepsCounted(w, step.i, x.phase, x.notified);
  }

  lemma WaitingTryKeepsCounted(w: World, i: nat)
    requires Shaped(w) && Counted(w) && Enabled(w, TryWaiting(i))
    ensures Shaped(Do(w, TryWaiting(i))) && Counted(Do(w, TryWaiting(i)))
  {
    var q := w.waiters[i].queue;
    if Attempt(w, q).Some? {
      GrantKeepsCounted(w, q);
      SetWaiterKeepsCounted(Grant(w, q, Attempt(w, q).value), i, Gone, false);
    } else {
      SetWaiterKeepsCounted(w, i, Refused(w.clock), w.waiters[i].notified);
    }
  }

  lemma WaitStepKeepsCounted(w: World, step: Step)
    requires Shaped(w) && Counted(w) && Enabled(w, step) && WaitStep(step)
    ensures Shaped(Do(w, step)) && Counted(Do(w, step))
  {
    match step
    case EnterWait(q) => EnterKeepsCounted(w, q);
    case TryWaiting(i) => WaitingTryKeepsCounted(w, i);
    case _ => WaiterStepKeepsCounted(w, step);
  }

  lemma {:induction false} HeldMeansCounted(permits: seq<Permit>, p: nat)
    requires p < |permits| && permits[p].phase.Held?
    ensures CountHeld(permits, permits[p].queue) > 0
  {
    if p < |permits| - 1 { HeldMeansCounted(permits[..|permits| - 1], p); }
  }

  lemma DropKeepsCounted(w: World, step: Step)
    requires Shaped(w) && Counted(w) && Enabled(w, step) && (step.Decrement? || step.Uncount? || step.ReleaseNotify?)
    ensures Shaped(Do(w, step)) && Counted(Do(w, step))
    ensures step.Decrement? ==> w.s.issued[w.permits[step.p].queue] > 0
  {
    var w' := Do(w, step);
    var p := w.permits[step.p];
    PermitChange(w.permits, step.p, w'.permits[step.p], 0);
    PermitChange(w.permits, step.p, w'.permits[step.p], 1);
    NotifyKeepsCount(w.waiters, w'.waiters);
    if step.Decrement? { HeldMeansCounted(w.permits, step.p); }
  }

  lemma GateStepKeepsCounted(w: World, step: Step)
    requires Shaped(w) && Counted(w) && Enabled(w, step) && !WaitStep(step)
    ensures Shaped(Do(w, step)) && Counted(Do(w, step))
  {
    match step
    case TryDirect(q) => if Attempt(w, q).Some? { GrantKeepsCounted(w, q); }
    case UpdateNotify => NotifyKeepsCounted(w.(updating := w.updating - 1));
    case ForeignNotify => NotifyKeepsCounted(w);
    case Decrement(_) | Uncount(_) | ReleaseNotify(_) => DropKeepsCounted(w, step);
    case _ =>
  }

  lemma StepKeepsCounted(w: World, step: Step)
    requires Shaped(w) && Counted(w) && Enabled(w, step)
    ensures Shaped(Do(w, step)) && Counted(Do(w, step))
  {
    if WaitStep(step) {
      WaitStepKeepsCounted(w, step);
    } else {
      GateStepKeepsCounted(w, step);
    }
  }

  lemma ConfigIsFixed(w: World, step: Step)
    requires Shaped(w) && Enabled(w, step)
    ensures Do(w, step).c == w.c
  {
  }

  // ---------------------------------------------------------------------------------------------
  // No missed event

  /** Some releaser or updater has changed the state and not yet notified. */
  predicate NotifierInFlight(w: World) {
    w.updating > 0 || exists p :: 0 <= p < |w.permits| && (w.permits[p].phase.Decremented? || w.permits[p].phase.Uncounted?)
  }

  predicate AwaitingNews(x: Waiter) {
    (x.phase.Refused? || x.phase.Parked?) && !x.notified
  }

  /** With the clock held at its refused attempt, an un-notified waiter could be served only because a notification is on its way. */
  ghost predicate Informed(w: World, i: nat)
    requires Shaped(w) && i < |w.waiters|
  {
    AwaitingNews(w.waiters[i]) ==>
      || TryReserve(w.c, w.s, w.allowed, w.waiters[i].queue, w.waiters[i].phase.at) == None
      || NotifierInFlight(w)
  }

  /** An armed timer never goes off later than the ramp allows, however `last` has moved since. */
  ghost predicate TimerTimely(w: World, i: nat)
    requires i < |w.waiters|
  {
    w.waiters[i].phase.Parked? && w.waiters[i].phase.timer.Some? ==> w.waiters[i].phase.timer.value <= w.s.last + w.c.ramp
  }

  ghost predicate Waiting(w: World)
    requires Shaped(w)
  {
    && w.s.last <= w.clock
    && (forall i :: 0 <= i < |w.waiters| ==> Informed(w, i) && TimerTimely(w, i))
  }

  ghost predicate QueuesExist(w: World) {
    && (forall i :: 0 <= i < |w.waiters| ==> QueueExists(w.c, w.waiters[i].queue))
    && (forall p :: 0 <= p < |w.permits| ==> QueueExists(w.c, w.permits[p].queue))
  }

  ghost predicate Inv(w: World) {
    WellFormed(w.c) && Shaped(w) && Counted(w) && Bounded(w.c, w.s) && Waiting(w) && QueuesExist(w)
  }

  lemma FlightSurvives(w: World, w': World)
    requires NotifierInFlight(w) && w'.updating == w.updating && |w.permits| <= |w'.permits|
    requires forall p :: 0 <= p < |w.permits| ==> w'.permits[p] == w.permits[p]
    ensures NotifierInFlight(w')
  {
    if w.updating == 0 {
      var p :| 0 <= p < |w.permits| && (w.permits[p].phase.Decremented? || w.permits[p].phase.Uncounted?);
      assert w'.permits[p] == w.permits[p];
    }
  }

  lemma GrantKeepsWaiting(w: World, q: nat)
    requires Shaped(w) && Waiting(w) && q < 2 && Attempt(w, q).Some?
    ensures Shaped(Grant(w, q, Attempt(w, q).value)) && Waiting(Grant(w, q, Attempt(w, q).value))
  {
    var w' := Grant(w, q, Attempt(w, q).value);
    forall i | 0 <= i < |w'.waiters| ensures Informed(w', i) && TimerTimely(w', i) {
      assert Informed(w, i) && TimerTimely(w, i);
      var x := w.waiters[i];
      if AwaitingNews(x) && TryReserve(w.c, w.s, w.allowed, x.queue, x.phase.at) == None {
        ReservationsNeverEnable(w.c, w.s, w.allowed, x.queue, x.phase.at, q, w.clock);
      } else if NotifierInFlight(w) {
        FlightSurvives(w, w');
      }
    }
  }

  /** Steps that change only one waiter, leaving it informed. */
  lemma OneWaiterKeepsWaiting(w: World, i: nat, w': World)
    requires Shaped(w) && Waiting(w) && Shaped(w') && i < |w.waiters| == |w'.waiters|
    requires w'.c == w.c && w'.s == w.s && w'.allowed == w.allowed && w'.clock == w.clock
    requires w'.permits == w.permits && w'.updating == w.updating
    requires forall j :: 0 <= j < |w.waiters| && j != i ==> w'.waiters[j] == w.waiters[j]
    requires Informed(w', i) && TimerTimely(w', i)
    ensures Waiting(w')
  {
    forall j | 0 <= j < |w'.waiters| ensures Informed(w', j) && TimerTimely(w', j) {
      assert Informed(w, j) && TimerTimely(w, j);
    }
  }

  /** A full notification leaves nobody waiting for news. */
  lemma NotifyKeepsWaiting(w: World, before: World)
    requires Shaped(w) && Waiting(w) && Shaped(before)
    requires before.waiters == w.waiters && before.s == w.s && before.c == w.c && before.clock == w.clock
    ensures Shaped(NotifyAll(before)) && Waiting(NotifyAll(before))
  {
    var w' := NotifyAll(before);
    forall i | 0 <= i < |w'.waiters| ensures Informed(w', i) && TimerTimely(w', i) {
      assert TimerTimely(w, i);
    }
  }

  /** A change that may serve somebody puts a notifier in flight. */
  lemma ChangeKeepsWaiting(w: World, step: Step)
    requires Inv(w) && Enabled(w, step) && (step.StoreAllowed? || step.Decrement? || step.Uncount?)
    ensures Shaped(Do(w, step)) && Waiting(Do(w, step))
  {
    var w' := Do(w, step);
    if !step.StoreAllowed? { assert w'.permits[step.p].phase.Decremented? || w'.permits[step.p].phase.Uncounted?; }
    assert NotifierInFlight(w');
    forall i | 0 <= i < |w'.waiters| ensures Informed(w', i) && TimerTimely(w', i) {
      assert TimerTimely(w, i);
    }
  }

  lemma WaiterStepKeepsWaiting(w: World, step: Step)
    requires Inv(w) && Enabled(w, step)
    requires step.Register? || step.Park? || step.Wake? || step.CancelWait?
    ensures Waiting(Do(w, step))
  {
    var w' := Do(w, step);
    assert Informed(w, step.i) && TimerTimely(w, step.i);
    OneWaiterKeepsWaiting(w, step.i, w');
  }

  lemma TryKeepsWaiting(w: World, i: nat)
    requires Inv(w) && Enabled(w, TryWaiting(i))
    ensures Waiting(Do(w, TryWaiting(i)))
  {
    var q := w.waiters[i].queue;
    var w' := Do(w, TryWaiting(i));
    if Attempt(w, q).Some? {
      GrantKeepsWaiting(w, q);
      OneWaiterKeepsWaiting(Grant(w, q, Attempt(w, q).value), i, w'.(pending := w.pending));
      forall j | 0 <= j < |w'.waiters| ensures Informed(w', j) && TimerTimely(w', j) {
        assert Informed(w'.(pending := w.pending), j) && TimerTimely(w'.(pending := w.pending), j);
      }
    } else {
      OneWaiterKeepsWaiting(w, i, w');
    }
  }

  lemma QuietKeepsWaiting(w: World, step: Step)
    requires Inv(w) && Enabled(w, step) && (step.Tick? || step.EnterWait?)
    ensures Shaped(Do(w, step)) && Waiting(Do(w, step))
  {
    var w' := Do(w, step);
    forall j | 0 <= j < |w'.waiters| ensures Informed(w', j) && TimerTimely(w', j) {
      if j < |w.waiters| { assert Informed(w, j) && TimerTimely(w, j); }
    }
  }

  lemma StepKeepsWaiting(w: World, step: Step)
    requires Inv(w) && Enabled(w, step)
    ensures Shaped(Do(w, step)) && Waiting(Do(w, step))
  {
    StepKeepsCounted(w, step);
    var w' := Do(w, step);
    match step
    case TryDirect(q) => if Attempt(w, q).Some? { GrantKeepsWaiting(w, q); }
    case TryWaiting(i) => TryKeepsWaiting(w, i);
    case UpdateNotify => NotifyKeepsWaiting(w, w.(updating := w.updating - 1));
    case ForeignNotify => NotifyKeepsWaiting(w, w);
    case ReleaseNotify(p) => NotifyKeepsWaiting(w, SetPermit(w, p, Released));
    case Register(_) => WaiterStepKeepsWaiting(w, step);
    case Park(_) => WaiterStepKeepsWaiting(w, step);
    case Wake(_) => WaiterStepKeepsWaiting(w, step);
    case CancelWait(_) => WaiterStepKeepsWaiting(w, step);
    case Decrement(_) => ChangeKeepsWaiting(w, step);
    case Uncount(_) => ChangeKeepsWaiting(w, step);
    case StoreAllowed(_) => ChangeKeepsWaiting(w, step);
    case _ => QuietKeepsWaiting(w, step);
  }

  lemma StepKeepsBounded(w: World, step: Step)
    requires Inv(w) && Enabled(w, step)
    ensures Bounded(w.c, Do(w, step).s)
  {
    match step
    case TryDirect(q) => if Attempt(w, q).Some? { ReservingKeepsBounded(w.c, w.s, w.allowed, q, w.clock); }
    case TryWaiting(i) =>
      var q := w.waiters[i].queue;
      if Attempt(w, q).Some? { ReservingKeepsBounded(w.c, w.s, w.allowed, q, w.clock); }
    case _ =>
  }

  lemma StepKeepsQueues(w: World, step: Step)
    requires Shaped(w) && QueuesExist(w) && Enabled(w, step)
    ensures QueuesExist(Do(w, step))
  {
  }

  lemma StepKeepsInv(w: World, step: Step)
    requires Inv(w) && Enabled(w, step)
    ensures Inv(Do(w, step))
  {
    StepKeepsCounted(w, step);
    ConfigIsFixed(w, step);
    StepKeepsWaiting(w, step);
    StepKeepsBounded(w, step);
    StepKeepsQueues(w, step);
  }

  /** Every run of every configuration the tuner accepts. */
  lemma {:induction false} RunsAreSafe(c: Config, run: seq<World>, steps: seq<Step>, k: nat)
    requires WellFormed(c) && IsRun(c, run, steps) && k < |run|
    ensures Inv(run[k]) && run[k].c == c
  {
    if k > 0 {
      RunsAreSafe(c, run, steps, k - 1);
      assert Linked(run, steps, k - 1);
      StepKeepsInv(run[k - 1], steps[k - 1]);
      ConfigIsFixed(run[k - 1], steps[k - 1]);
    }
  }

  /** In every reachable world: the hard maximum, no underflow in `available_slots`, exact counters, and service for an empty sticky queue. */
  lemma PermitsAreBoundedAndFair(c: Config, run: seq<World>, steps: seq<Step>, k: nat, q: nat, now: nat)
    requires WellFormed(c) && IsRun(c, run, steps) && k < |run| && q < 2
    ensures Shaped(run[k]) && Total(run[k].s) <= c.maximum
    ensures CountHeld(run[k].permits, 0) + CountHeld(run[k].permits, 1) == Total(run[k].s)
    ensures run[k].reserved == Total(run[k].s) + CountHalfway(run[k].permits)
    ensures c.sticky && CountHeld(run[k].permits, q) == 0 ==> TryReserve(c, run[k].s, run[k].allowed, q, now).Some?
  {
    RunsAreSafe(c, run, steps, k);
    if c.sticky && run[k].s.issued[q] == 0 {
      EmptyQueueIsAlwaysServed(c, run[k].s, run[k].allowed, q, now);
    }
  }

  /** In every reachable world, a waiter that could be served at the time it was refused has a notification coming. */
  lemma WaitersMissNoEvent(c: Config, run: seq<World>, steps: seq<Step>, k: nat, i: nat)
    requires WellFormed(c) && IsRun(c, run, steps) && k < |run| && i < |run[k].waiters|
    requires AwaitingNews(run[k].waiters[i])
    ensures Shaped(run[k])
    ensures TryReserve(c, run[k].s, run[k].allowed, run[k].waiters[i].queue, run[k].waiters[i].phase.at).Some?
            ==> NotifierInFlight(run[k])
  {
    RunsAreSafe(c, run, steps, k);
    assert Informed(run[k], i);
  }

  // ---------------------------------------------------------------------------------------------
  // What pressure and ramp decide, and what they do not

  /** A permit was handed out by this step. */
  predicate Grants(before: World, after: World) {
    |after.permits| > |before.permits|
  }

  /** The clock at the latest grant, zero before the first. */
  ghost function LatestGrant(run: seq<World>, k: nat): nat
    requires k < |run|
  {
    if k == 0 then 0 else if Grants(run[k - 1], run[k]) then run[k - 1].clock else LatestGrant(run, k - 1)
  }

  /** Permits handed out and not yet being dropped. */
  function Outstanding(w: World): nat {
    CountHeld(w.permits, 0) + CountHeld(w.permits, 1)
  }

  /** The one slot left belongs to the other queue, which has none yet. */
  predicate KeptForTheOther(w: World, q: nat)
    requires q < 2
  {
    w.c.sticky && CountHeld(w.permits, 1 - q) == 0 && Outstanding(w) + 1 == w.c.maximum
  }

  lemma StepMovesLast(w: World, step: Step)
    requires Shaped(w) && Enabled(w, step)
    ensures Do(w, step).s.last == if Grants(w, Do(w, step)) then w.clock else w.s.last
    ensures w.clock <= Do(w, step).clock
  {
  }

  lemma {:induction false} LastIsLatestGrant(c: Config, run: seq<World>, steps: seq<Step>, k: nat)
    requires IsRun(c, run, steps) && k < |run|
    ensures run[k].s.last == LatestGrant(run, k)
  {
    if k > 0 {
      LastIsLatestGrant(c, run, steps, k - 1);
      assert Linked(run, steps, k - 1);
      StepMovesLast(run[k - 1], steps[k - 1]);
    }
  }

  /** Below the minimum a request is served whatever pressure and ramp say, unless the last slot is kept for the other queue. */
  lemma BelowMinimumIsServedIff(c: Config, run: seq<World>, steps: seq<Step>, k: nat, q: nat, allowed: bool, now: nat)
    requires WellFormed(c) && IsRun(c, run, steps) && k < |run| && q < 2 && Outstanding(run[k]) < c.minimum
    ensures Shaped(run[k])
    ensures TryReserve(c, run[k].s, allowed, q, now).Some? <==> !KeptForTheOther(run[k], q)
  {
    RunsAreSafe(c, run, steps, k);
  }

  /**
   From the minimum on, a queue that is not an empty sticky one is served exactly when a slot is left for
   it, the gate is open and the ramp has passed since the latest grant to anybody.
   */
  lemma FromMinimumIsServedIff(c: Config, run: seq<World>, steps: seq<Step>, k: nat, q: nat, now: nat)
    requires WellFormed(c) && IsRun(c, run, steps) && k < |run| && q < 2 && run[k].clock <= now
    requires Outstanding(run[k]) >= c.minimum && !(c.sticky && CountHeld(run[k].permits, q) == 0)
    ensures Shaped(run[k]) && LatestGrant(run, k) <= now
    ensures TryReserve(c, run[k].s, run[k].allowed, q, now).Some? <==>
      && Outstanding(run[k]) < c.maximum && !KeptForTheOther(run[k], q)
      && run[k].allowed && now - LatestGrant(run, k) >= c.ramp
  {
    RunsAreSafe(c, run, steps, k);
    LastIsLatestGrant(c, run, steps, k);
  }

  /** Every permit is handed out for one of the two reasons, while a slot is left for its queue. */
  lemma GrantsHaveAReason(c: Config, run: seq<World>, steps: seq<Step>, k: nat)
    requires WellFormed(c) && IsRun(c, run, steps) && k < |steps| && Grants(run[k], run[k + 1])
    ensures var w, q := run[k], run[k + 1].permits[|run[k].permits|].queue;
            && q < 2 && Outstanding(w) < c.maximum && !KeptForTheOther(w, q)
            && (|| Outstanding(w) < c.minimum
                || (c.sticky && CountHeld(w.permits, q) == 0)
                || (w.allowed && w.clock >= LatestGrant(run, k) + c.ramp))
  {
    RunsAreSafe(c, run, steps, k);
    LastIsLatestGrant(c, run, steps, k);
    assert Linked(run, steps, k);
  }

  // ---------------------------------------------------------------------------------------------
  // Permits and waits come to an end

  function DropLeft(phase: PermitPhase): nat {
    match phase
    case Held => 3
    case Decremented => 2
    case Uncounted => 1
    case Released => 0
  }

  function AllDropsLeft(permits: seq<Permit>): nat {
    if permits == [] then 0 else AllDropsLeft(permits[..|permits| - 1]) + DropLeft(permits[|permits| - 1].phase)
  }

  lemma {:induction false} OneDropMoves(permits: seq<Permit>, p: nat, changed: Permit)
    requires p < |permits|
    ensures AllDropsLeft(permits[p := changed]) == AllDropsLeft(permits) - DropLeft(permits[p].phase) + DropLeft(changed.phase)
  {
    var n := |permits| - 1;
    if p < n {
      OneDropMoves(permits[..n], p, changed);
      assert permits[p := changed][..n] == permits[..n][p := changed];
    } else {
      assert permits[p := changed][..n] == permits[..n];
    }
  }

  predicate DropStep(step: Step) {
    step.Decrement? || step.Uncount? || step.ReleaseNotify?
  }

  lemma OthersHandOut(w: World, step: Step)
    requires Shaped(w) && Enabled(w, step) && !DropStep(step)
    ensures Do(w, step).permits == w.permits || exists q :: Do(w, step).permits == w.permits + [Permit(q, Held)]
  {
  }

  lemma DropStepMoves(w: World, step: Step)
    requires Shaped(w) && Enabled(w, step) && DropStep(step)
    ensures var w' := Do(w, step);
            && |w'.permits| == |w.permits| && w'.permits == w.permits[step.p := w'.permits[step.p]]
            && DropLeft(w'.permits[step.p].phase) + 1 == DropLeft(w.permits[step.p].phase)
  {
  }

  lemma DropsMoveOn(w: World, step: Step)
    requires Shaped(w) && Enabled(w, step)
    ensures var w' := Do(w, step);
            && |w.permits| <= |w'.permits| <= |w.permits| + 1
            && AllDropsLeft(w'.permits) + (if DropStep(step) then 1 else 0)
               == AllDropsLeft(w.permits) + 3 * (|w'.permits| - |w.permits|)
  {
    var permits := Do(w, step).permits;
    if DropStep(step) {
      DropStepMoves(w, step);
      OneDropMoves(w.permits, step.p, permits[step.p]);
    } else {
      OthersHandOut(w, step);
      assert permits != w.permits ==> permits[..|w.permits|] == w.permits;
    }
  }

  /** Dropping a permit is its three effects, once each. */
  lemma {:induction false} DropsTakeThreeSteps(c: Config, run: seq<World>, steps: seq<Step>, k: nat)
    requires IsRun(c, run, steps) && k < |run|
    ensures Runs.Count(steps[..k], DropStep) + AllDropsLeft(run[k].permits) == 3 * |run[k].permits|
  {
    if k > 0 {
      DropsTakeThreeSteps(c, run, steps, k - 1);
      assert Linked(run, steps, k - 1);
      DropsMoveOn(run[k - 1], steps[k - 1]);
      Runs.CountNext(steps, k - 1, DropStep);
    }
  }

  /** The most steps a waiter still takes by itself before it is gone or is woken. */
  function WaitLeft(phase: WaitPhase): nat {
    match phase
    case Looping => 4
    case Registered => 3
    case Refused(_) => 2
    case Parked(_, _) => 1
    case Gone => 0
  }

  predicate WaiterStep(step: Step, i: nat) {
    match step
    case Register(j) => j == i
    case TryWaiting(j) => j == i
    case Park(j) => j == i
    case Wake(j) => j == i
    case CancelWait(j) => j == i
    case _ => false
  }

  predicate ComesRound(before: World, after: World, i: nat) {
    i < |before.waiters| && i < |after.waiters| && before.waiters[i].phase.Parked? && after.waiters[i].phase.Looping?
  }

  /** Only what is registered can be notified; nothing is kept for whoever comes later. */
  ghost predicate NothingStored(w: World) {
    forall i :: 0 <= i < |w.waiters| && (w.waiters[i].phase.Looping? || w.waiters[i].phase.Gone?) ==> !w.waiters[i].notified
  }

  lemma WaiterMovesOn(w: World, step: Step, i: nat)
    requires Shaped(w) && Enabled(w, step) && i < |w.waiters|
    ensures var w' := Do(w, step);
            && i < |w'.waiters|
            && (!WaiterStep(step, i) ==> w'.waiters[i].phase == w.waiters[i].phase)
            && (WaiterStep(step, i) ==> ComesRound(w, w', i) || WaitLeft(w'.waiters[i].phase) < WaitLeft(w.waiters[i].phase))
  {
  }

  lemma StepStoresNothing(w: World, step: Step)
    requires Shaped(w) && Enabled(w, step) && NothingStored(w)
    ensures NothingStored(Do(w, step))
    ensures |w.waiters| <= |Do(w, step).waiters|
  {
  }

  ghost function OwnSteps(steps: seq<Step>, i: nat): nat {
    if steps == [] then 0 else OwnSteps(steps[..|steps| - 1], i) + if WaiterStep(steps[|steps| - 1], i) then 1 else 0
  }

  ghost function Rounds(run: seq<World>, k: nat, i: nat): nat
    requires k < |run|
  {
    if k == 0 then 0 else Rounds(run, k - 1, i) + if ComesRound(run[k - 1], run[k], i) then 1 else 0
  }

  /** No waiter spins: four steps of its own for each time it was woken, and four more. Notifications are not stored. */
  lemma {:induction false} WaitsAreBounded(c: Config, run: seq<World>, steps: seq<Step>, k: nat, i: nat)
    requires IsRun(c, run, steps) && k < |run|
    ensures NothingStored(run[k])
    ensures OwnSteps(steps[..k], i) + (if i < |run[k].waiters| then WaitLeft(run[k].waiters[i].phase) else 4) <= 4 * (1 + Rounds(run, k, i))
  {
    if k > 0 {
      WaitsAreBounded(c, run, steps, k - 1, i);
      assert Linked(run, steps, k - 1);
      assert steps[..k][..k - 1] == steps[..k - 1];
      StepStoresNothing(run[k - 1], steps[k - 1]);
      if i < |run[k - 1].waiters| { WaiterMovesOn(run[k - 1], steps[k - 1], i); }
    }
  }

  /** A waiter that is neither gone nor parked without news can go on. */
  lemma WaiterCanGoOn(w: World, i: nat) returns (step: Step)
    requires WaiterIn(w, i) && (w.waiters[i].phase.Parked? ==> w.waiters[i].notified || TimerFired(w, w.waiters[i].phase))
    ensures Enabled(w, step) && WaiterStep(step, i) && !step.CancelWait?
  {
    step := match w.waiters[i].phase
            case Looping => Register(i)
            case Registered => TryWaiting(i)
            case Refused(_) => Park(i)
            case _ => Wake(i);
  }

  // ---------------------------------------------------------------------------------------------
  // The ramp timer, and when it is missing

  /** A waiter that parked at step `j` and is in the same wait at `k` has the timer that step gave it. */
  lemma TimerComesFromPark(c: Config, run: seq<World>, steps: seq<Step>, j: nat, k: nat, i: nat)
    requires WellFormed(c) && IsRun(c, run, steps) && j < |steps| && steps[j] == Park(i) && k < |run|
    requires i < |run[j + 1].waiters| && i < |run[k].waiters| && run[k].waiters[i].phase == run[j + 1].waiters[i].phase
    ensures Shaped(run[j]) && run[k].waiters[i].phase.Parked?
    ensures run[k].waiters[i].phase.timer.Some? <==> Elapsed(run[j].clock, run[j].s.last) < c.ramp
  {
    RunsAreSafe(c, run, steps, j);
    assert Linked(run, steps, j);
  }

  /** An un-notified waiter that time has made servable is past its timer, if it has one. */
  lemma ArmedTimerHasFired(c: Config, run: seq<World>, steps: seq<Step>, k: nat, i: nat)
    requires WellFormed(c) && IsRun(c, run, steps) && k < |run| && i < |run[k].waiters|
    requires Shaped(run[k]) && run[k].waiters[i].phase.Parked? && !run[k].waiters[i].notified && !NotifierInFlight(run[k])
    requires TryReserve(c, run[k].s, run[k].allowed, run[k].waiters[i].queue, run[k].clock).Some?
    ensures Enabled(run[k], Wake(i)) <==> run[k].waiters[i].phase.timer.Some?
  {
    RunsAreSafe(c, run, steps, k);
    assert Informed(run[k], i) && TimerTimely(run[k], i);
  }

  /**
   A parked waiter that the passing of time alone has made servable can go on by itself exactly when the
   ramp was still running at the moment it parked; otherwise it has no timer (the branch is disabled for
   a wait of zero) and depends on somebody else's next notification.
   */
  lemma ServableWaiterProceedsIff(c: Config, run: seq<World>, steps: seq<Step>, j: nat, k: nat, i: nat)
    requires WellFormed(c) && IsRun(c, run, steps) && j < |steps| && steps[j] == Park(i) && k < |run|
    requires i < |run[j + 1].waiters| && i < |run[k].waiters| && run[k].waiters[i].phase == run[j + 1].waiters[i].phase
    requires Shaped(run[k]) && !run[k].waiters[i].notified && !NotifierInFlight(run[k])
    requires TryReserve(c, run[k].s, run[k].allowed, run[k].waiters[i].queue, run[k].clock).Some?
    ensures Shaped(run[j])
    ensures Enabled(run[k], Wake(i)) <==> Elapsed(run[j].clock, run[j].s.last) < c.ramp
  {
    TimerComesFromPark(c, run, steps, j, k, i);
    ArmedTimerHasFired(c, run, steps, k, i);
  }

  const STALL: Config := Config(0, 2, 10, false)

  /** Before and after the second caller arrives; at most one permit, issued at time ten. */
  function Opening(allowed: bool, clock: nat, updating: nat): World {
    World(STALL, State([0, 0], 0), allowed, clock, 0, 0, [], [], updating)
  }

  function Stalled(clock: nat, waiters: seq<Waiter>): World {
    World(STALL, State([1, 0], 10), true, clock, 1, |waiters|, [Permit(0, Held)], waiters, 0)
  }

  const STALL_STEPS: seq<Step> :=
    [StoreAllowed(true), UpdateNotify, Tick(10), TryDirect(0), EnterWait(0), Register(0), TryWaiting(0), Tick(10), Park(0)]

  const STALL_RUN: seq<World> :=
    [Opening(false, 0, 0), Opening(true, 0, 1), Opening(true, 0, 0), Opening(true, 10, 0),
     Stalled(10, []),
     Stalled(10, [Waiter(0, Looping, false)]),
     Stalled(10, [Waiter(0, Registered, false)]),
     Stalled(10, [Waiter(0, Refused(10), false)]),
     Stalled(20, [Waiter(0, Refused(10), false)]),
     Stalled(20, [Waiter(0, Parked(10, None), false)])]

  lemma OpeningSteps()
    ensures Do(Opening(false, 0, 0), StoreAllowed(true)) == Opening(true, 0, 1)
    ensures Do(Opening(true, 0, 1), UpdateNotify) == Opening(true, 0, 0)
    ensures Do(Opening(true, 0, 0), Tick(10)) == Opening(true, 10, 0)
    ensures Do(Opening(true, 10, 0), TryDirect(0)) == Stalled(10, [])
  {
    assert NotifyAll(Opening(true, 0, 0)).waiters == [];
  }

  lemma StallingSteps()
    ensures Do(Stalled(10, []), EnterWait(0)) == Stalled(10, [Waiter(0, Looping, false)])
    ensures Do(Stalled(10, [Waiter(0, Looping, false)]), Register(0)) == Stalled(10, [Waiter(0, Registered, false)])
    ensures Do(Stalled(10, [Waiter(0, Registered, false)]), TryWaiting(0)) == Stalled(10, [Waiter(0, Refused(10), false)])
    ensures Do(Stalled(10, [Waiter(0, Refused(10), false)]), Tick(10)) == Stalled(20, [Waiter(0, Refused(10), false)])
    ensures Do(Stalled(20, [Waiter(0, Refused(10), false)]), Park(0)) == Stalled(20, [Waiter(0, Parked(10, None), false)])
  {
  }

  /**
   Such a waiter is reachable: refused within the ramp, it recomputes its wait once the ramp is over,
   parks without a timer and stays there although it could be served and nobody is about to notify it.
   */
  lemma TimerlessWaiterIsReachable()
    ensures WellFormed(STALL) && IsRun(STALL, STALL_RUN, STALL_STEPS)
    ensures var w := STALL_RUN[9]; Attempt(w, 0).Some? && !NotifierInFlight(w) && !Enabled(w, Wake(0))
  {
    OpeningSteps();
    StallingSteps();
    forall k: nat | k < 9 ensures Linked(STALL_RUN, STALL_STEPS, k) {
      assert k == 0 || k == 1 || k == 2 || k == 3 || k == 4 || k == 5 || k == 6 || k == 7 || k == 8;
    }
  }

  // ---------------------------------------------------------------------------------------------
  // The supplier as the source updates it

  class ResourceGate {
    /** The admission mask, as the set of its bits. */
    var allowed: set<nat>
    var reserved: seq<int>
    var notified: nat

    constructor ()
      ensures allowed == {} && reserved == [0, 0, 0, 0] && notified == 0
    {
      allowed, reserved, notified := {}, [0, 0, 0, 0], 0;
    }

    method Update(mask: set<nat>)
      modifies this`allowed, this`notified
      ensures allowed == mask && notified == old(notified) + 1
    {
      allowed := mask;
      notified := notified + 1;
    }
  }

  class JvmSlots {
    const gate: ResourceGate
    const config: Config
    const kind: nat
    var issued: seq<nat>
    var last: nat

    function View(): State
      reads this
    {
      State(issued, last)
    }

    ghost predicate Valid()
      reads this, gate
    {
      WellFormed(config) && Bounded(config, View()) && kind < 4 && |gate.reserved| == 4
    }

    constructor (gate: ResourceGate, config: Config, kind: nat, now: nat)
      requires WellFormed(config) && kind < 4 && |gate.reserved| == 4
      ensures Valid() && this.gate == gate && this.config == config && this.kind == kind && View() == State([0, 0], now)
    {
      this.gate, this.config, this.kind := gate, config, kind;
      issued, last := [0, 0], now;
    }

    /** Grants exactly when `TryReserve` does, on the queue the poll asks for. */
    method TryReserveSlot(isSticky: bool, now: nat) returns (queue: Option<nat>)
      requires Valid()
      modifies this`issued, this`last, gate`reserved
      ensures Valid()
      ensures var q := if config.sticky && isSticky then 1 else 0;
              var attempt := TryReserve(config, old(View()), kind in gate.allowed, q, now);
              && queue == (if attempt.Some? then Some(q) else None)
              && View() == (if attempt.Some? then attempt.value else old(View()))
              && gate.reserved == if attempt.Some? then old(gate.reserved)[kind := old(gate.reserved[kind]) + 1] else old(gate.reserved)
    {
      var q := if config.sticky && isSticky then 1 else 0;
      var total := issued[0] + issued[1];
      if total >= config.maximum {
        return None;
      }
      if config.sticky && issued[1 - q] == 0 && total + 1 == config.maximum {
        return None;
      }
      var required := total < config.minimum || (config.sticky && issued[q] == 0);
      if !required && (kind !in gate.allowed || Elapsed(now, last) < config.ramp) {
        return None;
      }
      issued := issued[q := issued[q] + 1];
      gate.reserved := gate.reserved[kind := gate.reserved[kind] + 1];
      last := now;
      queue := Some(q);
    }

    /** `Drop for Permit`: count, then statistic, then notification. */
    method DropPermit(queue: nat)
      requires Valid() && queue < 2 && issued[queue] > 0
      modifies this`issued, gate`reserved, gate`notified
      ensures Valid() && issued == old(issued)[queue := old(issued[queue]) - 1]
      ensures gate.reserved == old(gate.reserved)[kind := old(gate.reserved[kind]) - 1]
      ensures gate.notified == old(gate.notified) + 1
    {
      issued := issued[queue := issued[queue] - 1];
      gate.reserved := gate.reserved[kind := gate.reserved[kind] - 1];
      gate.notified := gate.notified + 1;
    }

    method AvailableSlots() returns (n: nat)
      requires Valid()
      ensures n + Total(View()) == config.maximum
    {
      n := config.maximum - (issued[0] + issued[1]);
    }
  }
}
