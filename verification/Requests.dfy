/**
 Request lifecycle: the pending table, cancellation, shutdown drain, and who owns the handle a
 creation made.

 `World` is the runtime seen at lock granularity: the pending lock, the queue lock and the handle
 table lock are each held for single steps, except that retire-and-enqueue and the shutdown drain
 keep the pending lock across several queue steps, exactly as the source does.
 */
module Requests {
  import opened Bridge
  import Queue
  import Runs

  /**
   A request task. `Pushing` is inside the pending lock with the id already removed; `entry` is the
   registration that removal retired. `Dropping` lost the race and still has to drop its result.
   */
  datatype Phase =
    | Running
    | Holding(result: Pending)
    | Pushing(result: Pending, entry: nat)
    | Dropping(result: Pending)
    | Done

  datatype Task = Task(reqId: nat, cancelled: bool, phase: Phase)

  datatype Lock = Unlocked | HeldBy(task: nat) | Draining

  /** A terminal completion the queue accepted, with the registration it retired. */
  datatype Answer = Answer(entry: nat, completion: Pending)

  /**
   `tasks` has one element per accepted registration, in order; `pending` maps a request id to the
   registration it currently names. `writing` holds what pollers have drained but not yet written
   out. `live` and `jvm` are the asynchronously created handles the table holds, and those the JVM
   has been given. `answers` is history.
   */
  datatype World = World(
    pending: map<nat, nat>,
    closed: bool,
    lock: Lock,
    tasks: seq<Task>,
    queue: seq<Pending>,
    queueClosed: bool,
    writing: seq<Pending>,
    abandoned: bool,
    live: set<nat>,
    jvm: set<nat>,
    answers: seq<Answer>)

  datatype Step =
    | Register(reqId: nat)
    | Cancel(reqId: nat)
    | SeeCancelled(t: nat, message: seq<byte>)
    | OpSettles(t: nat, result: Pending)
    | OpPanics(t: nat, message: seq<byte>)
    | OpCreates(t: nat, kind: KtKind, handle: nat, payload: seq<byte>)
    | Retire(t: nat)
    | PushResult(t: nat)
    | DropResult(t: nat)
    | DrainBegin
    | DrainOne(reqId: nat, message: seq<byte>)
    | DrainEnd
    | PushEvent(event: Pending)
    | PollDrain(take: nat)
    | WriteOut(i: nat)
    | Abandon
    | DropQueued
    | RemoveHandles(handles: set<nat>)

  predicate InPhase(w: World, t: nat, running: bool, holding: bool) {
    t < |w.tasks| && ((running && w.tasks[t].phase.Running?) || (holding && w.tasks[t].phase.Holding?))
  }

  predicate Enabled(w: World, step: Step) {
    match step
    case Register(reqId) => w.lock.Unlocked? && reqId != 0
    case Cancel(_) => w.lock.Unlocked?
    case SeeCancelled(t, _) => InPhase(w, t, true, false) && w.tasks[t].cancelled
    case OpSettles(t, r) => InPhase(w, t, true, false) && r.reqId == w.tasks[t].reqId && r.Carried() == None
    case OpPanics(t, _) => InPhase(w, t, true, false)
    case OpCreates(t, kind, h, _) =>
      InPhase(w, t, true, false) && (kind == ClientConnected || kind == EphemeralStarted) && h != 0 && h !in w.live
    case Retire(t) => InPhase(w, t, false, true) && w.lock.Unlocked?
    case PushResult(t) => t < |w.tasks| && w.tasks[t].phase.Pushing?
    case DropResult(t) => t < |w.tasks| && w.tasks[t].phase.Dropping?
    case DrainBegin => w.lock.Unlocked?
    case DrainOne(reqId, _) => w.lock.Draining? && reqId in w.pending
    case DrainEnd => w.lock.Draining? && w.pending == map[]
    case PushEvent(e) => e.reqId == 0 && e.Carried() == None && !w.abandoned
    case PollDrain(take) => take <= |w.queue| && !w.abandoned
    case WriteOut(i) => i < |w.writing|
    case Abandon =>
      w.queueClosed && w.lock.Unlocked? && w.writing == [] && forall t :: 0 <= t < |w.tasks| ==> w.tasks[t].phase.Done?
    case DropQueued => w.abandoned && w.queue != []
    case RemoveHandles(_) => true
  }

  function SetPhase(w: World, t: nat, phase: Phase): World
    requires t < |w.tasks|
  {
    w.(tasks := w.tasks[t := w.tasks[t].(phase := phase)])
  }

  /** `Drop for Pending`: a carried handle leaves the table if it is still there. */
  function Release(w: World, p: Pending): World {
    if p.Carried().Some? then w.(live := w.live - {p.Carried().value}, jvm := w.jvm - {p.Carried().value}) else w
  }

  /** A terminal push: accepted by an open queue, dropped by a closed one. */
  function PushTerminal(w: World, entry: nat, p: Pending): World {
    if w.queueClosed then Release(w, p)
    else w.(queue := w.queue + [p], answers := w.answers + [Answer(entry, p)])
  }

  function SetCancelled(w: World, t: nat): World {
    if t < |w.tasks| then w.(tasks := w.tasks[t := w.tasks[t].(cancelled := true)]) else w
  }

  function Do(w: World, step: Step): World
    requires Enabled(w, step)
  {
    match step
    case Register(reqId) =>
      if w.closed || reqId in w.pending then w
      else w.(pending := w.pending[reqId := |w.tasks|], tasks := w.tasks + [Task(reqId, false, Running)])
    case Cancel(reqId) =>
      if reqId in w.pending then SetCancelled(w, w.pending[reqId]) else w
    case SeeCancelled(t, message) => SetPhase(w, t, Holding(ErrorOf(w.tasks[t].reqId, KT_ERR_CANCELLED, message)))
    case OpSettles(t, result) => SetPhase(w, t, Holding(result))
    case OpPanics(t, message) => SetPhase(w, t, Holding(ErrorOf(w.tasks[t].reqId, KT_ERR_PANIC, message)))
    case OpCreates(t, kind, h, payload) =>
      SetPhase(w, t, Holding(Pending(w.tasks[t].reqId, kind, KT_OK, payload, h, 0))).(live := w.live + {h})
    case Retire(t) =>
      var id := w.tasks[t].reqId;
      if id in w.pending
      then SetPhase(w, t, Pushing(w.tasks[t].phase.result, w.pending[id])).(pending := w.pending - {id}, lock := HeldBy(t))
      else SetPhase(w, t, Dropping(w.tasks[t].phase.result))
    case PushResult(t) =>
      PushTerminal(SetPhase(w, t, Done).(lock := Unlocked), w.tasks[t].phase.entry, w.tasks[t].phase.result)
    case DropResult(t) => Release(SetPhase(w, t, Done), w.tasks[t].phase.result)
    case DrainBegin => w.(lock := Draining, closed := true)
    case DrainOne(id, message) =>
      PushTerminal(SetCancelled(w, w.pending[id]).(pending := w.pending - {id}),
                   w.pending[id], ErrorOf(id, KT_ERR_SHUTDOWN, message))
    case DrainEnd => w.(queueClosed := true, lock := Unlocked)
    case PushEvent(e) => if w.queueClosed then w else w.(queue := w.queue + [e])
    case PollDrain(take) => w.(queue := w.queue[take..], writing := w.writing + w.queue[..take])
    case WriteOut(i) =>
      var p := w.writing[i];
      var rest := w.(writing := w.writing[..i] + w.writing[i + 1..]);
      if p.Carried().Some? && p.Carried().value in w.live then rest.(jvm := w.jvm + {p.Carried().value}) else rest
    case Abandon => w.(abandoned := true)
    case DropQueued => Release(w.(queue := w.queue[1..]), w.queue[0])
    case RemoveHandles(hs) => w.(live := w.live - hs, jvm := w.jvm - hs)
  }

  /** The steps of a task itself. */
  predicate SetsPhase(step: Step) {
    || step.SeeCancelled? || step.OpSettles? || step.OpPanics? || step.OpCreates?
    || step.Retire? || step.PushResult? || step.DropResult?
  }

  /** The phase a task's own step leaves it in. */
  function PhaseAfter(w: World, step: Step): Phase
    requires Enabled(w, step) && SetsPhase(step)
  {
    var task := w.tasks[step.t];
    match step
    case SeeCancelled(_, message) => Holding(ErrorOf(task.reqId, KT_ERR_CANCELLED, message))
    case OpSettles(_, result) => Holding(result)
    case OpPanics(_, message) => Holding(ErrorOf(task.reqId, KT_ERR_PANIC, message))
    case OpCreates(_, kind, h, payload) => Holding(Pending(task.reqId, kind, KT_OK, payload, h, 0))
    case Retire(_) =>
      if task.reqId in w.pending then Pushing(task.phase.result, w.pending[task.reqId]) else Dropping(task.phase.result)
    case _ => Done
  }

  lemma OwnStepSetsPhase(w: World, step: Step)
    requires Enabled(w, step) && SetsPhase(step)
    ensures Do(w, step).tasks == w.tasks[step.t := w.tasks[step.t].(phase := PhaseAfter(w, step))]
  {
  }

  /** All other steps add a running task or change no phase. */
  lemma OtherPhasesStay(w: World, step: Step)
    requires Enabled(w, step) && !SetsPhase(step)
    ensures var w' := Do(w, step);
            && |w.tasks| <= |w'.tasks|
            && (forall t :: 0 <= t < |w.tasks| ==>
                  w'.tasks[t].phase == w.tasks[t].phase && w'.tasks[t].reqId == w.tasks[t].reqId)
            && (!step.Register? ==> |w'.tasks| == |w.tasks|)
            && (forall t :: |w.tasks| <= t < |w'.tasks| ==> w'.tasks[t].phase == Running)
  {
  }

  const NEW_WORLD: World :=
    World(map[], false, Unlocked, [], [], false, [], false, {}, {}, [])

  ghost predicate Linked(run: seq<World>, steps: seq<Step>, k: nat)
    requires k < |steps| && |run| == |steps| + 1
  {
    Enabled(run[k], steps[k]) && run[k + 1] == Do(run[k], steps[k])
  }

  ghost predicate IsRun(run: seq<World>, steps: seq<Step>) {
    |run| == |steps| + 1 && run[0] == NEW_WORLD && forall k: nat :: k < |steps| ==> Linked(run, steps, k)
  }

  // ---------------------------------------------------------------------------------------------
  // Exactly one terminal completion per registration

  function AnswersTo(answers: seq<Answer>, entry: nat): nat {
    if answers == [] then 0
    else AnswersTo(answers[..|answers| - 1], entry) + if answers[|answers| - 1].entry == entry then 1 else 0
  }

  lemma AnswersGrow(answers: seq<Answer>, a: Answer, entry: nat)
    ensures AnswersTo(answers + [a], entry) == AnswersTo(answers, entry) + if a.entry == entry then 1 else 0
  {
    assert (answers + [a])[..|answers|] == answers;
  }

  /** The table still names this registration. */
  predicate Outstanding(w: World, r: nat)
    requires r < |w.tasks|
  {
    w.tasks[r].reqId in w.pending && w.pending[w.tasks[r].reqId] == r
  }

  /** The registration's own state agrees with how often it has been answered. */
  ghost predicate Accounted(w: World, r: nat)
    requires r < |w.tasks|
  {
    var task := w.tasks[r];
    && task.reqId != 0
    && (task.phase.Pushing? ==> task.phase.entry == r && w.lock == HeldBy(r) && !Outstanding(w, r))
    && (Outstanding(w, r) ==> task.phase.Running? || task.phase.Holding?)
    && (!w.closed && (task.phase.Running? || task.phase.Holding?) ==> Outstanding(w, r))
    && AnswersTo(w.answers, r) == (if Outstanding(w, r) || task.phase.Pushing? then 0 else 1)
  }

  ghost predicate TableSound(w: World) {
    && (forall id :: id in w.pending ==> w.pending[id] < |w.tasks| && w.tasks[w.pending[id]].reqId == id)
    && (w.lock.HeldBy? ==> w.lock.task < |w.tasks| && w.tasks[w.lock.task].phase.Pushing?)
    && (w.lock.Draining? ==> w.closed)
    && (w.closed && !w.lock.Draining? ==> w.pending == map[])
    && (w.queueClosed ==> w.closed && w.pending == map[] && !w.lock.HeldBy?)
  }

  /** Results answer their own request, and so does everything the queue accepted. */
  ghost predicate AnswersTruthful(w: World) {
    && (forall t :: 0 <= t < |w.tasks| && (w.tasks[t].phase.Holding? || w.tasks[t].phase.Pushing?) ==>
          w.tasks[t].phase.result.reqId == w.tasks[t].reqId)
    && (forall k :: 0 <= k < |w.answers| ==>
          && w.answers[k].entry < |w.tasks|
          && w.answers[k].completion.reqId == w.tasks[w.answers[k].entry].reqId)
  }

  ghost predicate Once(w: World) {
    TableSound(w) && AnswersTruthful(w) && forall r :: 0 <= r < |w.tasks| ==> Accounted(w, r)
  }

  lemma {:induction false} NeverAnsweredYet(answers: seq<Answer>, n: nat)
    requires forall k :: 0 <= k < |answers| ==> answers[k].entry < n
    ensures AnswersTo(answers, n) == 0
  {
    if answers != [] { NeverAnsweredYet(answers[..|answers| - 1], n); }
  }

  lemma RegisterKeepsOnce(w: World, id: nat)
    requires Once(w) && Enabled(w, Register(id))
    ensures Once(Do(w, Register(id)))
  {
    var w' := Do(w, Register(id));
    if w' != w {
      var n := |w.tasks|;
      NeverAnsweredYet(w.answers, n);
      forall r | 0 <= r < n ensures Accounted(w', r) {
        assert Accounted(w, r) && w'.tasks[r] == w.tasks[r];
      }
    }
  }

  lemma RetireKeepsOnce(w: World, t: nat)
    requires Once(w) && Enabled(w, Retire(t))
    ensures Once(Do(w, Retire(t)))
  {
    var w' := Do(w, Retire(t));
    var id := w.tasks[t].reqId;
    assert Accounted(w, t);
    if id in w.pending {
      assert Accounted(w, w.pending[id]);
      assert w.pending[id] == t by {
        if w.closed { assert false; }
      }
    }
    forall r | 0 <= r < |w'.tasks| ensures Accounted(w', r) {
      assert Accounted(w, r);
    }
  }

  lemma PushKeepsOnce(w: World, t: nat)
    requires Once(w) && Enabled(w, PushResult(t))
    ensures Once(Do(w, PushResult(t))) && !w.queueClosed
  {
    var w' := Do(w, PushResult(t));
    assert Accounted(w, t);
    var a := Answer(t, w.tasks[t].phase.result);
    assert w'.answers == w.answers + [a];
    forall r | 0 <= r < |w'.tasks| ensures Accounted(w', r) {
      AnswersGrow(w.answers, a, r);
      assert Accounted(w, r);
    }
    forall s | 0 <= s < |w'.tasks| ensures w'.tasks[s].reqId == w.tasks[s].reqId {}
  }

  lemma DrainKeepsOnce(w: World, id: nat, message: seq<byte>)
    requires Once(w) && Enabled(w, DrainOne(id, message))
    ensures Once(Do(w, DrainOne(id, message))) && !w.queueClosed
  {
    var w' := Do(w, DrainOne(id, message));
    var a := Answer(w.pending[id], ErrorOf(id, KT_ERR_SHUTDOWN, message));
    assert w'.answers == w.answers + [a];
    forall r | 0 <= r < |w'.tasks| ensures Accounted(w', r) {
      AnswersGrow(w.answers, a, r);
      assert Accounted(w, r);
    }
    forall s | 0 <= s < |w'.tasks| ensures w'.tasks[s].reqId == w.tasks[s].reqId && w'.tasks[s].phase == w.tasks[s].phase {}
  }

  /** Steps that leave the table, the lock and the answers alone. */
  lemma QuietKeepsOnce(w: World, w': World)
    requires Once(w)
    requires w'.pending == w.pending && w'.lock == w.lock && w'.answers == w.answers
    requires w'.closed == w.closed && w'.queueClosed == w.queueClosed && |w'.tasks| == |w.tasks|
    requires forall r {:trigger w'.tasks[r]} :: 0 <= r < |w.tasks| ==>
      && w'.tasks[r].reqId == w.tasks[r].reqId
      && (w'.tasks[r].phase == w.tasks[r].phase
          || (w.tasks[r].phase.Running? && w'.tasks[r].phase.Holding? && w'.tasks[r].phase.result.reqId == w.tasks[r].reqId)
          || (w.tasks[r].phase.Dropping? && w'.tasks[r].phase.Done?))
    ensures Once(w')
  {
    forall r | 0 <= r < |w'.tasks| ensures Accounted(w', r) {
      assert Accounted(w, r);
    }
  }

  lemma DrainEdgeKeepsOnce(w: World, step: Step)
    requires Once(w) && Enabled(w, step) && (step.DrainBegin? || step.DrainEnd?)
    ensures Once(Do(w, step))
  {
    forall r | 0 <= r < |w.tasks| ensures Accounted(Do(w, step), r) { assert Accounted(w, r); }
  }

  lemma TaskStepKeepsOnce(w: World, step: Step)
    requires Once(w) && Enabled(w, step)
    requires step.Cancel? || step.SeeCancelled? || step.OpSettles? || step.OpPanics? || step.OpCreates? || step.DropResult?
    ensures Once(Do(w, step))
  {
    match step
    case Cancel(_) => QuietKeepsOnce(w, Do(w, step));
    case SeeCancelled(_, _) => QuietKeepsOnce(w, Do(w, step));
    case OpSettles(_, _) => QuietKeepsOnce(w, Do(w, step));
    case OpPanics(_, _) => QuietKeepsOnce(w, Do(w, step));
    case OpCreates(_, _, _, _) => QuietKeepsOnce(w, Do(w, step));
    case DropResult(_) => QuietKeepsOnce(w, Do(w, step));
  }

  lemma StepKeepsOnce(w: World, step: Step)
    requires Once(w) && Enabled(w, step)
    ensures Once(Do(w, step))
  {
    match step
    case Register(id) => RegisterKeepsOnce(w, id);
    case Retire(t) => RetireKeepsOnce(w, t);
    case PushResult(t) => PushKeepsOnce(w, t);
    case DrainOne(id, message) => DrainKeepsOnce(w, id, message);
    case DrainBegin => DrainEdgeKeepsOnce(w, step);
    case DrainEnd => DrainEdgeKeepsOnce(w, step);
    case PollDrain(_) => QuietKeepsOnce(w, Do(w, step));
    case WriteOut(_) => QuietKeepsOnce(w, Do(w, step));
    case PushEvent(_) => QuietKeepsOnce(w, Do(w, step));
    case Abandon => QuietKeepsOnce(w, Do(w, step));
    case DropQueued => QuietKeepsOnce(w, Do(w, step));
    case RemoveHandles(_) => QuietKeepsOnce(w, Do(w, step));
    case _ => TaskStepKeepsOnce(w, step);
  }

  /**
   In every reachable world each accepted registration is outstanding with no answer, or being
   pushed under the lock, or answered exactly once; the queue is closed only with the table empty.
   */
  lemma {:induction false} EveryRequestIsAnsweredOnce(run: seq<World>, steps: seq<Step>, k: nat)
    requires IsRun(run, steps) && k < |run|
    ensures Once(run[k])
    ensures run[k].queueClosed ==> run[k].pending == map[]
    ensures run[k].lock.Unlocked? ==> forall r :: 0 <= r < |run[k].tasks| ==>
      AnswersTo(run[k].answers, r) == if Outstanding(run[k], r) then 0 else 1
  {
    if k > 0 {
      EveryRequestIsAnsweredOnce(run, steps, k - 1);
      assert Linked(run, steps, k - 1);
      StepKeepsOnce(run[k - 1], steps[k - 1]);
    }
    forall r | 0 <= r < |run[k].tasks| && run[k].lock.Unlocked?
      ensures AnswersTo(run[k].answers, r) == if Outstanding(run[k], r) then 0 else 1
    {
      assert Accounted(run[k], r);
    }
  }

  /** Terminal completions accepted under a request id. */
  function AnswersUnder(answers: seq<Answer>, id: nat): nat {
    if answers == [] then 0
    else AnswersUnder(answers[..|answers| - 1], id) + if answers[|answers| - 1].completion.reqId == id then 1 else 0
  }

  lemma {:induction false} OnlyHolderAnswers(answers: seq<Answer>, tasks: seq<Task>, r: nat)
    requires r < |tasks| && forall s :: 0 <= s < |tasks| && tasks[s].reqId == tasks[r].reqId ==> s == r
    requires forall k :: 0 <= k < |answers| ==>
      answers[k].entry < |tasks| && answers[k].completion.reqId == tasks[answers[k].entry].reqId
    ensures AnswersUnder(answers, tasks[r].reqId) == AnswersTo(answers, r)
  {
    if answers != [] { OnlyHolderAnswers(answers[..|answers| - 1], tasks, r); }
  }

  /** A caller that never reuses an id is sent exactly one terminal completion under it, and none while it is outstanding. */
  lemma UnusedIdsAreAnsweredOnce(run: seq<World>, steps: seq<Step>, k: nat, r: nat)
    requires IsRun(run, steps) && k < |run| && r < |run[k].tasks|
    requires forall s :: 0 <= s < |run[k].tasks| && run[k].tasks[s].reqId == run[k].tasks[r].reqId ==> s == r
    ensures AnswersUnder(run[k].answers, run[k].tasks[r].reqId)
         == if Outstanding(run[k], r) || run[k].tasks[r].phase.Pushing? then 0 else 1
  {
    EveryRequestIsAnsweredOnce(run, steps, k);
    assert Accounted(run[k], r);
    OnlyHolderAnswers(run[k].answers, run[k].tasks, r);
  }

  /** An error as the JVM decodes it: its own request id, the status, and nothing but the message. */
  predicate IsError(p: Pending, id: nat, status: int, message: seq<byte>) {
    && p.reqId == id && p.kind == Ack && p.status == status && p.payload == message
    && p.aux0 == 0 && p.aux1 == 0 && p.Carried() == None
  }

  ghost predicate IsNextAnswer(w: World, step: Step, a: Answer) {
    match step
    case PushResult(t) => t < |w.tasks| && w.tasks[t].phase.Pushing? && a == Answer(t, w.tasks[t].phase.result)
    case DrainOne(id, _) =>
      id in w.pending && a.entry == w.pending[id] && IsError(a.completion, id, KT_ERR_SHUTDOWN, step.message)
    case _ => false
  }

  /**
   No terminal completion ever meets a closed queue: whoever pushes one still holds the pending lock.
   A finishing task pushes its own result for its own registration; the drain answers the
   registration it retires with the shutdown error.
   */
  lemma TerminalPushIsAccepted(run: seq<World>, steps: seq<Step>, k: nat)
    requires IsRun(run, steps) && k < |steps| && (steps[k].PushResult? || steps[k].DrainOne?)
    ensures !run[k].queueClosed
    ensures exists a ::
              && IsNextAnswer(run[k], steps[k], a)
              && run[k + 1].answers == run[k].answers + [a] && run[k + 1].queue == run[k].queue + [a.completion]
  {
    EveryRequestIsAnsweredOnce(run, steps, k);
    assert Linked(run, steps, k);
    match steps[k]
    case PushResult(t) =>
      PushKeepsOnce(run[k], t);
      assert Accounted(run[k], t);
      assert IsNextAnswer(run[k], steps[k], Answer(t, run[k].tasks[t].phase.result));
    case DrainOne(id, message) =>
      DrainKeepsOnce(run[k], id, message);
      assert IsNextAnswer(run[k], steps[k], Answer(run[k].pending[id], ErrorOf(id, KT_ERR_SHUTDOWN, message)));
  }

  predicate Carries(phase: Phase, result: Pending) {
    match phase
    case Running => false
    case Holding(r) => r == result
    case Pushing(r, _) => r == result
    case Dropping(r) => r == result
    case Done => true
  }

  lemma StepKeepsResult(w: World, step: Step, t: nat, result: Pending)
    requires Enabled(w, step) && t < |w.tasks| && Carries(w.tasks[t].phase, result)
    ensures t < |Do(w, step).tasks| && Carries(Do(w, step).tasks[t].phase, result)
  {
    if SetsPhase(step) {
      OwnStepSetsPhase(w, step);
    } else {
      OtherPhasesStay(w, step);
    }
  }

  /** What a task settled on is what it later pushes or drops, whatever happens in between. */
  lemma {:induction false} SettledResultNeverChanges(run: seq<World>, steps: seq<Step>, j: nat, k: nat, t: nat)
    requires IsRun(run, steps) && j <= k < |run| && t < |run[j].tasks| && run[j].tasks[t].phase.Holding?
    ensures t < |run[k].tasks| && Carries(run[k].tasks[t].phase, run[j].tasks[t].phase.result)
    decreases k
  {
    if j < k {
      SettledResultNeverChanges(run, steps, j, k - 1, t);
      assert Linked(run, steps, k - 1);
      StepKeepsResult(run[k - 1], steps[k - 1], t, run[j].tasks[t].phase.result);
    }
  }

  /** `p` reports to request `id`, registration `entry`, what `step` did to it. */
  predicate Tells(step: Step, entry: nat, id: nat, p: Pending) {
    match step
    case SeeCancelled(t, message) => t == entry && IsError(p, id, KT_ERR_CANCELLED, message)
    case OpPanics(t, message) => t == entry && IsError(p, id, KT_ERR_PANIC, message)
    case OpSettles(t, result) => t == entry && p == result && p.reqId == id
    case OpCreates(t, kind, handle, payload) =>
      t == entry && p.reqId == id && p.kind == kind && p.status == KT_OK && p.payload == payload && p.Carried() == Some(handle)
    case DrainOne(i, message) => i == id && IsError(p, id, KT_ERR_SHUTDOWN, message)
    case _ => false
  }

  function ResultOf(phase: Phase): Option<Pending> {
    match phase
    case Holding(r) => Some(r)
    case Pushing(r, _) => Some(r)
    case Dropping(r) => Some(r)
    case _ => None
  }

  lemma NewResultsTell(w: World, step: Step, t: nat)
    requires Enabled(w, step) && t < |Do(w, step).tasks| && ResultOf(Do(w, step).tasks[t].phase).Some?
    ensures t < |w.tasks| && Do(w, step).tasks[t].reqId == w.tasks[t].reqId
    ensures ResultOf(w.tasks[t].phase) == ResultOf(Do(w, step).tasks[t].phase)
         || Tells(step, t, w.tasks[t].reqId, ResultOf(Do(w, step).tasks[t].phase).value)
  {
    if SetsPhase(step) {
      OwnStepSetsPhase(w, step);
    } else {
      OtherPhasesStay(w, step);
    }
  }

  /** Whatever a task is holding tells what happened to it. */
  lemma {:induction false} ResultTells(run: seq<World>, steps: seq<Step>, k: nat, t: nat) returns (j: nat)
    requires IsRun(run, steps) && k < |run| && t < |run[k].tasks| && ResultOf(run[k].tasks[t].phase).Some?
    ensures j < k && Tells(steps[j], t, run[k].tasks[t].reqId, ResultOf(run[k].tasks[t].phase).value)
  {
    assert Linked(run, steps, k - 1);
    NewResultsTell(run[k - 1], steps[k - 1], t);
    if ResultOf(run[k - 1].tasks[t].phase) == ResultOf(run[k].tasks[t].phase) {
      j := ResultTells(run, steps, k - 1, t);
    } else {
      j := k - 1;
    }
  }

  lemma IdsStay(w: World, step: Step)
    requires Enabled(w, step)
    ensures |w.tasks| <= |Do(w, step).tasks|
    ensures forall t :: 0 <= t < |w.tasks| ==> Do(w, step).tasks[t].reqId == w.tasks[t].reqId
  {
    if SetsPhase(step) {
      OwnStepSetsPhase(w, step);
    } else {
      OtherPhasesStay(w, step);
    }
  }

  lemma AnswersKeep(w: World, step: Step)
    requires Enabled(w, step) && !step.PushResult? && !step.DrainOne?
    ensures Do(w, step).answers == w.answers
  {
  }

  /**
   Every completion a request is answered with says, with the status, message, kind and handle of that
   event, what happened to it: its operation's result, the panic, the cancellation it saw, or the shutdown.
   */
  lemma {:induction false} EveryAnswerTellsWhatHappened(run: seq<World>, steps: seq<Step>, k: nat, n: nat) returns (j: nat)
    requires IsRun(run, steps) && k < |run| && n < |run[k].answers|
    ensures j < k && run[k].answers[n].entry < |run[k].tasks|
    ensures var a := run[k].answers[n]; Tells(steps[j], a.entry, run[k].tasks[a.entry].reqId, a.completion)
  {
    assert Linked(run, steps, k - 1);
    var w, step := run[k - 1], steps[k - 1];
    EveryRequestIsAnsweredOnce(run, steps, k - 1);
    IdsStay(w, step);
    if !step.PushResult? && !step.DrainOne? {
      AnswersKeep(w, step);
      j := EveryAnswerTellsWhatHappened(run, steps, k - 1, n);
    } else {
      TerminalPushIsAccepted(run, steps, k - 1);
      var a :| IsNextAnswer(w, step, a) && run[k].answers == w.answers + [a];
      if n < |w.answers| {
        j := EveryAnswerTellsWhatHappened(run, steps, k - 1, n);
      } else if step.PushResult? {
        j := ResultTells(run, steps, k - 1, step.t);
      } else {
        j := k - 1;
      }
    }
  }

  // ---------------------------------------------------------------------------------------------
  // Every task ends

  /** The steps a task still takes. */
  function StepsLeft(phase: Phase): nat {
    match phase
    case Running => 3
    case Holding(_) => 2
    case Pushing(_, _) | Dropping(_) => 1
    case Done => 0
  }

  function AllStepsLeft(tasks: seq<Task>): nat {
    if tasks == [] then 0 else AllStepsLeft(tasks[..|tasks| - 1]) + StepsLeft(tasks[|tasks| - 1].phase)
  }

  lemma {:induction false} SameStepsLeft(a: seq<Task>, b: seq<Task>)
    requires |a| == |b| && forall t :: 0 <= t < |a| ==> a[t].phase == b[t].phase
    ensures AllStepsLeft(a) == AllStepsLeft(b)
  {
    if a != [] { SameStepsLeft(a[..|a| - 1], b[..|b| - 1]); }
  }

  lemma {:induction false} OneTaskMoves(tasks: seq<Task>, t: nat, task: Task)
    requires t < |tasks|
    ensures AllStepsLeft(tasks[t := task]) == AllStepsLeft(tasks) - StepsLeft(tasks[t].phase) + StepsLeft(task.phase)
  {
    var n := |tasks| - 1;
    if t < n {
      OneTaskMoves(tasks[..n], t, task);
      assert tasks[t := task][..n] == tasks[..n][t := task];
    } else {
      assert tasks[t := task][..n] == tasks[..n];
    }
  }

  lemma TaskTakesItsStep(w: World, step: Step)
    requires Enabled(w, step)
    ensures var w' := Do(w, step);
            && |w.tasks| <= |w'.tasks| <= |w.tasks| + 1
            && AllStepsLeft(w'.tasks) + (if SetsPhase(step) then 1 else 0) == AllStepsLeft(w.tasks) + 3 * (|w'.tasks| - |w.tasks|)
  {
    var w' := Do(w, step);
    if SetsPhase(step) {
      OwnStepSetsPhase(w, step);
      OneTaskMoves(w.tasks, step.t, w'.tasks[step.t]);
    } else {
      OtherPhasesStay(w, step);
      SameStepsLeft(w.tasks, w'.tasks[..|w.tasks|]);
      assert |w'.tasks| == |w.tasks| ==> w'.tasks[..|w.tasks|] == w'.tasks;
    }
  }

  /** A task takes three steps in all: it settles, retires its id, and pushes or drops its result. */
  lemma {:induction false} TasksTakeThreeSteps(run: seq<World>, steps: seq<Step>, k: nat)
    requires IsRun(run, steps) && k < |run|
    ensures Runs.Count(steps[..k], SetsPhase) + AllStepsLeft(run[k].tasks) == 3 * |run[k].tasks|
  {
    if k > 0 {
      TasksTakeThreeSteps(run, steps, k - 1);
      assert Linked(run, steps, k - 1);
      TaskTakesItsStep(run[k - 1], steps[k - 1]);
      Runs.CountNext(steps, k - 1, SetsPhase);
    }
  }

  /** Whoever holds the pending lock can go on; once it is free so can every task that has not ended. */
  lemma TaskCanGoOn(w: World, t: nat, result: Pending) returns (step: Step)
    requires Once(w) && t < |w.tasks| && !w.tasks[t].phase.Done? && result.reqId == w.tasks[t].reqId && result.Carried() == None
    ensures Enabled(w, step)
    ensures match w.lock
            case Unlocked => SetsPhase(step) && step.t == t
            case HeldBy(owner) => step == PushResult(owner)
            case Draining => step == DrainEnd || (step.DrainOne? && Do(w, step).pending.Keys < w.pending.Keys)
  {
    match w.lock
    case HeldBy(owner) => step := PushResult(owner);
    case Draining =>
      if w.pending == map[] {
        step := DrainEnd;
      } else {
        var id :| id in w.pending;
        step := DrainOne(id, []);
      }
    case Unlocked =>
      assert Accounted(w, t);
      step := match w.tasks[t].phase
              case Running => OpSettles(t, result)
              case Holding(_) => Retire(t)
              case _ => DropResult(t);
  }

  // ---------------------------------------------------------------------------------------------
  // Who holds the pending lock lets go of it

  predicate LockStep(step: Step) {
    step.PushResult? || step.DrainOne? || step.DrainEnd?
  }

  /** The steps its owner still takes under the lock: one push, or one answer for each id and the closing. */
  function LockLeft(w: World): nat {
    match w.lock
    case Unlocked => 0
    case HeldBy(_) => 1
    case Draining => |w.pending| + 1
  }

  /** What taking the lock costs, if the step takes it. */
  function LockDue(w: World, step: Step): nat {
    match step
    case Retire(t) => if t < |w.tasks| && w.tasks[t].reqId in w.pending then 1 else 0
    case DrainBegin => |w.pending| + 1
    case _ => 0
  }

  lemma LockOwnerMovesOn(w: World, step: Step)
    requires Once(w) && Enabled(w, step) && LockStep(step)
    ensures LockLeft(Do(w, step)) + 1 == LockLeft(w)
  {
    match step
    case PushResult(t) => assert Accounted(w, t);
    case DrainOne(id, _) => assert |w.pending - {id}| == |w.pending| - 1;
    case DrainEnd =>
  }

  lemma LockIsTaken(w: World, step: Step)
    requires Enabled(w, step) && (step.Retire? || step.DrainBegin? || step.Register?)
    ensures LockLeft(Do(w, step)) == LockLeft(w) + LockDue(w, step)
  {
  }

  lemma TasksLeaveTheLock(w: World, step: Step)
    requires Enabled(w, step)
    requires step.Cancel? || step.SeeCancelled? || step.OpSettles? || step.OpPanics? || step.OpCreates? || step.DropResult?
    ensures Do(w, step).lock == w.lock && Do(w, step).pending == w.pending
  {
  }

  lemma QueueLeavesTheLock(w: World, step: Step)
    requires Enabled(w, step)
    requires step.PushEvent? || step.PollDrain? || step.WriteOut? || step.Abandon? || step.DropQueued? || step.RemoveHandles?
    ensures Do(w, step).lock == w.lock && Do(w, step).pending == w.pending
  {
  }

  lemma LockMovesOn(w: World, step: Step)
    requires Once(w) && Enabled(w, step)
    ensures LockLeft(Do(w, step)) + (if LockStep(step) then 1 else 0) == LockLeft(w) + LockDue(w, step)
  {
    if LockStep(step) {
      LockOwnerMovesOn(w, step);
    } else if step.Retire? || step.DrainBegin? || step.Register? {
      LockIsTaken(w, step);
    } else if step.PushEvent? || step.PollDrain? || step.WriteOut? || step.Abandon? || step.DropQueued? || step.RemoveHandles? {
      QueueLeavesTheLock(w, step);
    } else {
      TasksLeaveTheLock(w, step);
    }
  }

  ghost function AllLockDue(run: seq<World>, steps: seq<Step>, k: nat): nat
    requires |run| == |steps| + 1 && k <= |steps|
  {
    if k == 0 then 0 else AllLockDue(run, steps, k - 1) + LockDue(run[k - 1], steps[k - 1])
  }

  /** A finishing task keeps the pending lock for one push, the drain for one answer per outstanding id and the closing. */
  lemma {:induction false} LockIsReleased(run: seq<World>, steps: seq<Step>, k: nat)
    requires IsRun(run, steps) && k < |run|
    ensures Runs.Count(steps[..k], LockStep) + LockLeft(run[k]) == AllLockDue(run, steps, k)
  {
    if k > 0 {
      LockIsReleased(run, steps, k - 1);
      EveryRequestIsAnsweredOnce(run, steps, k - 1);
      assert Linked(run, steps, k - 1);
      Runs.CountNext(steps, k - 1, LockStep);
      LockMovesOn(run[k - 1], steps[k - 1]);
    }
  }

  // ---------------------------------------------------------------------------------------------
  // Cancellation

  /** The step cancels registration `r`: by its id while that names it, or by draining it. */
  predicate Cancels(w: World, step: Step, r: nat) {
    && (step.Cancel? || step.DrainOne?) && step.reqId in w.pending && w.pending[step.reqId] == r
  }

  lemma StepCancels(w: World, step: Step, r: nat)
    requires TableSound(w) && Enabled(w, step) && r < |Do(w, step).tasks|
    ensures Do(w, step).tasks[r].cancelled <==> (r < |w.tasks| && w.tasks[r].cancelled) || Cancels(w, step, r)
  {
    if SetsPhase(step) { OwnStepSetsPhase(w, step); }
  }

  lemma {:induction false} TasksOnlyJoin(run: seq<World>, steps: seq<Step>, j: nat, k: nat)
    requires IsRun(run, steps) && j <= k < |run|
    ensures |run[j].tasks| <= |run[k].tasks|
    decreases k
  {
    if j < k {
      TasksOnlyJoin(run, steps, j, k - 1);
      assert Linked(run, steps, k - 1);
      IdsStay(run[k - 1], steps[k - 1]);
    }
  }

  /** A registration's token is cancelled exactly when a cancel request or the shutdown drain found it under its id. */
  lemma {:induction false} CancelledIff(run: seq<World>, steps: seq<Step>, k: nat, r: nat)
    requires IsRun(run, steps) && k < |run| && r < |run[k].tasks|
    ensures run[k].tasks[r].cancelled <==> exists j: nat :: j < k && Cancels(run[j], steps[j], r)
  {
    if k > 0 {
      EveryRequestIsAnsweredOnce(run, steps, k - 1);
      assert Linked(run, steps, k - 1);
      StepCancels(run[k - 1], steps[k - 1], r);
      if r < |run[k - 1].tasks| {
        CancelledIff(run, steps, k - 1, r);
      } else {
        forall j: nat | j < k ensures !Cancels(run[j], steps[j], r) {
          EveryRequestIsAnsweredOnce(run, steps, j);
          TasksOnlyJoin(run, steps, j, k - 1);
        }
      }
    }
  }

  // ---------------------------------------------------------------------------------------------
  // One owner per handle

  function Names(p: Pending, h: nat): nat {
    if p.Carried() == Some(h) then 1 else 0
  }

  function NamedByPhase(phase: Phase, h: nat): nat {
    match phase
    case Holding(r) => Names(r, h)
    case Pushing(r, _) => Names(r, h)
    case Dropping(r) => Names(r, h)
    case _ => 0
  }

  function NamedByTasks(tasks: seq<Task>, h: nat): nat {
    if tasks == [] then 0
    else NamedByTasks(tasks[..|tasks| - 1], h) + NamedByPhase(tasks[|tasks| - 1].phase, h)
  }

  function NamedIn(ps: seq<Pending>, h: nat): nat {
    if ps == [] then 0 else Names(ps[0], h) + NamedIn(ps[1..], h)
  }

  /** How many completions that nobody has been given yet carry `h`. */
  function Undelivered(w: World, h: nat): nat {
    NamedByTasks(w.tasks, h) + NamedIn(w.queue, h) + NamedIn(w.writing, h)
  }

  /** `h` is carried at most once, never both carried and given to the JVM, and not lost while live. */
  ghost predicate OneOwner(w: World, h: nat) {
    && Undelivered(w, h) <= 1
    && (h in w.jvm ==> h in w.live && Undelivered(w, h) == 0)
    && (h in w.live ==> h in w.jvm || Undelivered(w, h) == 1)
  }

  lemma {:induction false} NamedByTasksAt(tasks: seq<Task>, t: nat, task: Task, h: nat)
    requires t < |tasks|
    ensures NamedByTasks(tasks[t := task], h) == NamedByTasks(tasks, h) - NamedByPhase(tasks[t].phase, h) + NamedByPhase(task.phase, h)
  {
    var n := |tasks| - 1;
    if t < n {
      NamedByTasksAt(tasks[..n], t, task, h);
      assert tasks[t := task][..n] == tasks[..n][t := task];
    } else {
      assert tasks[t := task][..n] == tasks[..n];
    }
  }

  lemma {:induction false} NamedInConcat(a: seq<Pending>, b: seq<Pending>, h: nat)
    ensures NamedIn(a + b, h) == NamedIn(a, h) + NamedIn(b, h)
  {
    if a == [] {
      assert a + b == b;
    } else {
      NamedInConcat(a[1..], b, h);
      assert (a + b)[0] == a[0] && (a + b)[1..] == a[1..] + b;
    }
  }

  lemma NamedInRemoved(ps: seq<Pending>, i: nat, h: nat)
    requires i < |ps|
    ensures NamedIn(ps, h) == NamedIn(ps[..i] + ps[i + 1..], h) + Names(ps[i], h)
  {
    assert ps == ps[..i] + ([ps[i]] + ps[i + 1..]);
    NamedInConcat(ps[..i], [ps[i]] + ps[i + 1..], h);
    NamedInConcat([ps[i]], ps[i + 1..], h);
    NamedInConcat(ps[..i], ps[i + 1..], h);
  }

  /** The completion a step takes out of the undelivered ones: dropped, or written out to the JVM. */
  function Leaves(w: World, step: Step): Option<Pending>
    requires Enabled(w, step)
  {
    match step
    case PushResult(t) => if w.queueClosed then Some(w.tasks[t].phase.result) else None
    case DropResult(t) => Some(w.tasks[t].phase.result)
    case WriteOut(i) => Some(w.writing[i])
    case DropQueued => Some(w.queue[0])
    case _ => None
  }

  ghost predicate Conserves(w: World, step: Step, h: nat)
    requires Enabled(w, step)
  {
    Undelivered(Do(w, step), h) + (if Leaves(w, step).Some? then Names(Leaves(w, step).value, h) else 0)
      == Undelivered(w, h) + if step.OpCreates? && step.handle == h then 1 else 0
  }

  lemma CancelMovesNothing(w: World, t: nat, h: nat)
    ensures NamedByTasks(SetCancelled(w, t).tasks, h) == NamedByTasks(w.tasks, h)
  {
    if t < |w.tasks| { NamedByTasksAt(w.tasks, t, w.tasks[t].(cancelled := true), h); }
  }

  lemma TableStepConserves(w: World, step: Step, h: nat)
    requires Enabled(w, step)
    requires step.Register? || step.Cancel? || step.DrainBegin? || step.DrainEnd? || step.Abandon? || step.RemoveHandles?
    ensures Conserves(w, step, h)
  {
    var w' := Do(w, step);
    if step.Register? && |w'.tasks| > |w.tasks| {
      assert w'.tasks[..|w.tasks|] == w.tasks;
    } else if step.Cancel? && step.reqId in w.pending {
      CancelMovesNothing(w, w.pending[step.reqId], h);
    }
  }

  lemma OpStepConserves(w: World, step: Step, h: nat)
    requires Enabled(w, step) && (step.SeeCancelled? || step.OpSettles? || step.OpPanics? || step.OpCreates?)
    ensures Conserves(w, step, h)
  {
    NamedByTasksAt(w.tasks, step.t, Do(w, step).tasks[step.t], h);
  }

  lemma RetireConserves(w: World, t: nat, h: nat)
    requires Enabled(w, Retire(t))
    ensures Conserves(w, Retire(t), h)
  {
    NamedByTasksAt(w.tasks, t, Do(w, Retire(t)).tasks[t], h);
  }

  lemma DropConserves(w: World, t: nat, h: nat)
    requires Enabled(w, DropResult(t))
    ensures Conserves(w, DropResult(t), h)
  {
    NamedByTasksAt(w.tasks, t, w.tasks[t].(phase := Done), h);
  }

  lemma OwnStepConserves(w: World, step: Step, h: nat)
    requires Enabled(w, step) && (step.Retire? || step.DropResult?)
    ensures Conserves(w, step, h)
  {
    if step.Retire? { RetireConserves(w, step.t, h); } else { DropConserves(w, step.t, h); }
  }

  lemma PollConserves(w: World, take: nat, h: nat)
    requires Enabled(w, PollDrain(take))
    ensures Conserves(w, PollDrain(take), h)
  {
    NamedInConcat(w.queue[..take], w.queue[take..], h);
    assert w.queue[..take] + w.queue[take..] == w.queue;
    NamedInConcat(w.writing, w.queue[..take], h);
  }

  lemma QueueStepConserves(w: World, step: Step, h: nat)
    requires Enabled(w, step) && (step.PushEvent? || step.PollDrain? || step.WriteOut? || step.DropQueued?)
    ensures Conserves(w, step, h)
  {
    match step
    case PushEvent(e) => NamedInConcat(w.queue, [e], h);
    case PollDrain(take) => PollConserves(w, take, h);
    case WriteOut(i) => NamedInRemoved(w.writing, i, h);
    case DropQueued => NamedInRemoved(w.queue, 0, h);
  }

  lemma PushConserves(w: World, t: nat, h: nat)
    requires Enabled(w, PushResult(t))
    ensures Conserves(w, PushResult(t), h)
  {
    NamedByTasksAt(w.tasks, t, w.tasks[t].(phase := Done), h);
    NamedInConcat(w.queue, [w.tasks[t].phase.result], h);
  }

  lemma DrainConserves(w: World, id: nat, message: seq<byte>, h: nat)
    requires Enabled(w, DrainOne(id, message))
    ensures Conserves(w, DrainOne(id, message), h)
  {
    CancelMovesNothing(w, w.pending[id], h);
    NamedInConcat(w.queue, [ErrorOf(id, KT_ERR_SHUTDOWN, message)], h);
  }

  /** Completions move between tasks, queue and pollers, but enter only by a creation and leave only by `Leaves`. */
  lemma StepConservesHandles(w: World, step: Step, h: nat)
    requires Enabled(w, step)
    ensures Conserves(w, step, h)
  {
    if step.PushEvent? || step.PollDrain? || step.WriteOut? || step.DropQueued? {
      QueueStepConserves(w, step, h);
    } else if step.PushResult? {
      PushConserves(w, step.t, h);
    } else if step.DrainOne? {
      DrainConserves(w, step.reqId, step.message, h);
    } else if step.SeeCancelled? || step.OpSettles? || step.OpPanics? || step.OpCreates? {
      OpStepConserves(w, step, h);
    } else if step.Retire? || step.DropResult? {
      OwnStepConserves(w, step, h);
    } else {
      TableStepConserves(w, step, h);
    }
  }

  /** A creation leaves a handle with one owner exactly when no undelivered completion already carries it. */
  lemma CreationKeepsOneOwnerIff(w: World, step: Step)
    requires step.OpCreates? && OneOwner(w, step.handle) && Enabled(w, step)
    ensures OneOwner(Do(w, step), step.handle) <==> Undelivered(w, step.handle) == 0
  {
    StepConservesHandles(w, step, step.handle);
  }

  /** How a step changes whether `h` is in the table and whether the JVM has it. */
  lemma StepTouchesTable(w: World, step: Step, h: nat)
    requires Enabled(w, step) && !(step.OpCreates? && step.handle == h) && !step.RemoveHandles?
    ensures var out := Leaves(w, step).Some? && Names(Leaves(w, step).value, h) == 1;
            var w' := Do(w, step);
            && (!out ==> (h in w'.live <==> h in w.live) && (h in w'.jvm <==> h in w.jvm))
            && (out && step.WriteOut? ==> (h in w'.live <==> h in w.live) && (h in w'.jvm <==> h in w.live || h in w.jvm))
            && (out && !step.WriteOut? ==> h !in w'.live && h !in w'.jvm)
  {
    match step
    case DrainOne(id, message) => assert ErrorOf(id, KT_ERR_SHUTDOWN, message).Carried() == None;
    case _ =>
  }

  /** Every other step keeps it, and a dropped completion never takes back a handle the JVM was given. */
  lemma StepKeepsOneOwner(w: World, step: Step, h: nat)
    requires OneOwner(w, h) && Enabled(w, step) && !(step.OpCreates? && step.handle == h)
    ensures OneOwner(Do(w, step), h)
    ensures !step.RemoveHandles? && h in w.jvm ==> h in Do(w, step).jvm
  {
    StepConservesHandles(w, step, h);
    if !step.RemoveHandles? { StepTouchesTable(w, step, h); }
  }

  /**
   No handle is issued again while a completion that names its previous use is still undelivered; that
   the table's generations see to this is `Ownership.NoReissueInFlight`.
   */
  ghost predicate NeverReissuedInFlight(run: seq<World>, steps: seq<Step>)
    requires |run| == |steps| + 1
  {
    forall k :: 0 <= k < |steps| && steps[k].OpCreates? ==> Undelivered(run[k], steps[k].handle) == 0
  }

  /** Over every such run each live handle has exactly one owner: one undelivered completion, or the JVM. */
  lemma {:induction false} OneOwnerUnlessReissued(run: seq<World>, steps: seq<Step>, k: nat, h: nat)
    requires IsRun(run, steps) && NeverReissuedInFlight(run, steps) && k < |run|
    ensures OneOwner(run[k], h)
    ensures h in run[k].live ==> (h in run[k].jvm <==> Undelivered(run[k], h) == 0)
  {
    if k > 0 {
      var step := steps[k - 1];
      OneOwnerUnlessReissued(run, steps, k - 1, h);
      assert Linked(run, steps, k - 1);
      if step.OpCreates? && step.handle == h {
        CreationKeepsOneOwnerIff(run[k - 1], step);
      } else {
        StepKeepsOneOwner(run[k - 1], step, h);
      }
    }
  }

  /** Over any run: every word has one owner in every state exactly when no word is reissued while it is carried. */
  lemma OneOwnerIffNeverReissued(run: seq<World>, steps: seq<Step>)
    requires IsRun(run, steps)
    ensures (forall k: nat, h: nat :: k < |run| ==> OneOwner(run[k], h)) <==> NeverReissuedInFlight(run, steps)
  {
    if NeverReissuedInFlight(run, steps) {
      forall k: nat, h: nat | k < |run| ensures OneOwner(run[k], h) {
        OneOwnerUnlessReissued(run, steps, k, h);
      }
    } else {
      var k :| 0 <= k < |steps| && steps[k].OpCreates? && Undelivered(run[k], steps[k].handle) > 0;
      assert Linked(run, steps, k);
      StepConservesHandles(run[k], steps[k], steps[k].handle);
      assert !OneOwner(run[k + 1], steps[k].handle);
    }
  }

  /** Every task has ended, the queue is closed and no poller is writing. */
  ghost predicate Quiet(w: World) {
    w.queueClosed && w.writing == [] && forall t :: 0 <= t < |w.tasks| ==> w.tasks[t].phase.Done?
  }

  lemma StepKeepsQuiet(w: World, step: Step)
    requires TableSound(w) && Enabled(w, step) && (w.abandoned ==> Quiet(w)) && Do(w, step).abandoned
    ensures Quiet(Do(w, step))
  {
    assert w.abandoned || step.Abandon?;
    assert Quiet(w);
  }

  lemma {:induction false} AbandonedIsQuiet(run: seq<World>, steps: seq<Step>, k: nat)
    requires IsRun(run, steps) && k < |run| && run[k].abandoned
    ensures Quiet(run[k])
  {
    if k > 0 {
      EveryRequestIsAnsweredOnce(run, steps, k - 1);
      assert Linked(run, steps, k - 1);
      if run[k - 1].abandoned { AbandonedIsQuiet(run, steps, k - 1); }
      StepKeepsQuiet(run[k - 1], steps[k - 1]);
    }
  }

  lemma {:induction false} AllDoneNameNothing(tasks: seq<Task>, h: nat)
    requires forall t :: 0 <= t < |tasks| ==> tasks[t].phase.Done?
    ensures NamedByTasks(tasks, h) == 0
  {
    if tasks != [] { AllDoneNameNothing(tasks[..|tasks| - 1], h); }
  }

  /** Nothing is left behind: once the abandoned queue has been dropped, every live handle is the JVM's. */
  lemma DroppedQueueLeavesNoHandle(run: seq<World>, steps: seq<Step>, k: nat)
    requires IsRun(run, steps) && NeverReissuedInFlight(run, steps) && k < |run|
    requires run[k].abandoned && run[k].queue == []
    ensures run[k].live == run[k].jvm
  {
    AbandonedIsQuiet(run, steps, k);
    forall h ensures h in run[k].live <==> h in run[k].jvm {
      OneOwnerUnlessReissued(run, steps, k, h);
      AllDoneNameNothing(run[k].tasks, h);
    }
  }

  // ---------------------------------------------------------------------------------------------
  // The queue keeps order, and closing is final

  /** What the step adds to the queue: events and answers, while the queue is open. */
  function PushedBy(w: World, step: Step): seq<Pending>
    requires Enabled(w, step)
  {
    if w.queueClosed then []
    else
      match step
      case PushEvent(e) => [e]
      case PushResult(t) => [w.tasks[t].phase.result]
      case DrainOne(id, message) => [ErrorOf(id, KT_ERR_SHUTDOWN, message)]
      case _ => []
  }

  /** What the step takes from it: a poll's batch, or one entry of an abandoned queue. */
  function TakenBy(w: World, step: Step): seq<Pending>
    requires Enabled(w, step)
  {
    match step
    case PollDrain(take) => w.queue[..take]
    case DropQueued => w.queue[..1]
    case _ => []
  }

  ghost function AllPushed(run: seq<World>, steps: seq<Step>, k: nat): seq<Pending>
    requires IsRun(run, steps) && k <= |steps|
  {
    if k == 0 then []
    else
      assert Linked(run, steps, k - 1);
      AllPushed(run, steps, k - 1) + PushedBy(run[k - 1], steps[k - 1])
  }

  ghost function AllTaken(run: seq<World>, steps: seq<Step>, k: nat): seq<Pending>
    requires IsRun(run, steps) && k <= |steps|
  {
    if k == 0 then []
    else
      assert Linked(run, steps, k - 1);
      AllTaken(run, steps, k - 1) + TakenBy(run[k - 1], steps[k - 1])
  }

  ghost predicate KeepsOrder(w: World, step: Step)
    requires Enabled(w, step)
  {
    TakenBy(w, step) + Do(w, step).queue == w.queue + PushedBy(w, step)
  }

  lemma PushKeepsOrder(w: World, step: Step)
    requires Enabled(w, step) && (step.PushEvent? || step.PushResult? || step.DrainOne?)
    ensures KeepsOrder(w, step)
  {
  }

  lemma TakingKeepsOrder(w: World, step: Step)
    requires Enabled(w, step) && (step.PollDrain? || step.DropQueued?)
    ensures KeepsOrder(w, step)
  {
  }

  lemma OthersLeaveTheQueue(w: World, step: Step)
    requires Enabled(w, step) && !step.PushEvent? && !step.PushResult? && !step.DrainOne? && !step.PollDrain? && !step.DropQueued?
    ensures Do(w, step).queue == w.queue
  {
  }

  lemma StepKeepsOrder(w: World, step: Step)
    requires Enabled(w, step)
    ensures KeepsOrder(w, step)
  {
    match step
    case PushEvent(_) | PushResult(_) | DrainOne(_, _) => PushKeepsOrder(w, step);
    case PollDrain(_) | DropQueued => TakingKeepsOrder(w, step);
    case _ => OthersLeaveTheQueue(w, step);
  }

  lemma OrderCarriesOver<T>(pushed: seq<T>, taken: seq<T>, queue: seq<T>, more: seq<T>, out: seq<T>, rest: seq<T>)
    requires pushed == taken + queue && out + rest == queue + more
    ensures pushed + more == (taken + out) + rest
  {
    assert pushed + more == taken + (queue + more);
  }

  /** Events and answers leave the queue in the order they were pushed, and none is lost or repeated. */
  lemma {:induction false} QueueIsFirstInFirstOut(run: seq<World>, steps: seq<Step>, k: nat)
    requires IsRun(run, steps) && k < |run|
    ensures AllPushed(run, steps, k) == AllTaken(run, steps, k) + run[k].queue
  {
    if k > 0 {
      QueueIsFirstInFirstOut(run, steps, k - 1);
      assert Linked(run, steps, k - 1);
      var w, step := run[k - 1], steps[k - 1];
      StepKeepsOrder(w, step);
      OrderCarriesOver(AllPushed(run, steps, k - 1), AllTaken(run, steps, k - 1), w.queue,
                       PushedBy(w, step), TakenBy(w, step), run[k].queue);
    }
  }

  /** What the shutdown drain and the last drop have closed stays closed. */
  ghost predicate ClosedSince(w: World, step: Step) {
    match step
    case DrainBegin => w.closed
    case DrainEnd => w.closed && w.queueClosed && w.pending == map[]
    case Abandon => w.closed && w.abandoned && Quiet(w)
    case _ => true
  }

  lemma ClosingStays(w: World, step: Step)
    requires Enabled(w, step)
    ensures (w.closed || step == DrainBegin ==> Do(w, step).closed)
    ensures (w.queueClosed || step == DrainEnd ==> Do(w, step).queueClosed)
    ensures (w.abandoned || step == Abandon ==> Do(w, step).abandoned)
    ensures w.closed ==> |Do(w, step).tasks| == |w.tasks|
  {
  }

  lemma {:induction false} ClosingIsKept(run: seq<World>, steps: seq<Step>, j: nat, k: nat)
    requires IsRun(run, steps) && j < k < |run|
    ensures steps[j] == DrainBegin || run[j].closed ==> run[k].closed
    ensures steps[j] == DrainEnd || run[j].queueClosed ==> run[k].queueClosed
    ensures steps[j] == Abandon || run[j].abandoned ==> run[k].abandoned
    decreases k
  {
    assert Linked(run, steps, k - 1);
    if j < k - 1 { ClosingIsKept(run, steps, j, k - 1); }
    ClosingStays(run[k - 1], steps[k - 1]);
  }

  /**
   Once the drain has begun no registration is accepted; once it has ended nothing is outstanding and the
   queue takes nothing more; once the queue is abandoned every task has ended.
   */
  lemma ClosingIsFinal(run: seq<World>, steps: seq<Step>, j: nat, k: nat)
    requires IsRun(run, steps) && j < k < |run|
    ensures ClosedSince(run[k], steps[j])
    ensures (steps[j] == DrainBegin || steps[j] == DrainEnd) && k < |steps| ==>
      && |run[k + 1].tasks| == |run[k].tasks|
      && (steps[j] == DrainEnd ==> Linked(run, steps, k) && PushedBy(run[k], steps[k]) == [])
  {
    ClosingIsKept(run, steps, j, k);
    EveryRequestIsAnsweredOnce(run, steps, k);
    if steps[j] == Abandon { AbandonedIsQuiet(run, steps, k); }
    if k < |steps| {
      assert Linked(run, steps, k);
      ClosingStays(run[k], steps[k]);
    }
  }

  // ---------------------------------------------------------------------------------------------
  // The runtime's table as the source updates it

  class CancellationToken {
    var cancelled: bool

    constructor ()
      ensures !cancelled
    {
      cancelled := false;
    }

    method CancelNow()
      modifies this
      ensures cancelled
    {
      cancelled := true;
    }
  }

  function ShutdownErrors(ids: seq<nat>, message: seq<byte>): seq<Pending> {
    if ids == [] then [] else ShutdownErrors(ids[..|ids| - 1], message) + [ErrorOf(ids[|ids| - 1], KT_ERR_SHUTDOWN, message)]
  }

  /** `all` is what is still `pending` and what is already in `order`, each id in one of them, once. */
  ghost predicate Parted(all: map<nat, CancellationToken>, pending: map<nat, CancellationToken>, order: seq<nat>) {
    && (forall id :: id in all <==> id in pending || id in order)
    && (forall id :: id in pending ==> pending[id] == all[id] && id !in order)
    && (forall j, k :: 0 <= j < k < |order| ==> order[j] != order[k])
  }

  lemma PartedMoves(all: map<nat, CancellationToken>, pending: map<nat, CancellationToken>, order: seq<nat>, id: nat)
    requires Parted(all, pending, order) && id in pending
    ensures Parted(all, pending - {id}, order + [id])
  {
    assert forall k :: 0 <= k < |order| ==> order[k] in order;
  }

  ghost predicate AllCancelled(all: map<nat, CancellationToken>, order: seq<nat>)
    reads all.Values
  {
    forall id :: id in order ==> id in all && all[id].cancelled
  }

  /** The queue once the ids in `order` have been answered; a closed queue drops the answers. */
  function Answered(before: seq<Pending>, closed: bool, order: seq<nat>, message: seq<byte>): seq<Pending> {
    if closed then before else before + ShutdownErrors(order, message)
  }

  lemma AnsweredGrows(before: seq<Pending>, closed: bool, order: seq<nat>, id: nat, message: seq<byte>)
    ensures Answered(before, closed, order + [id], message)
         == if closed then before else Answered(before, closed, order, message) + [ErrorOf(id, KT_ERR_SHUTDOWN, message)]
  {
    assert (order + [id])[..|order|] == order;
  }

  class RuntimeEntry {
    const queue: Queue.CompletionQueue
    var pending: map<nat, CancellationToken>
    var closed: bool

    constructor ()
      ensures pending == map[] && !closed && fresh(queue) && queue.View() == Queue.State([], 0, false)
    {
      queue := new Queue.CompletionQueue();
      pending, closed := map[], false;
    }

    /** Shutdown is checked first, then the duplicate; an earlier registration of the id survives a rejection. */
    method RegisterRequest(reqId: nat) returns (r: Result<CancellationToken>)
      modifies this`pending
      ensures r == Err(Shutdown) <==> closed
      ensures r == Err(InvalidArgument) <==> !closed && reqId in old(pending)
      ensures r.Ok? ==> fresh(r.value) && !r.value.cancelled && pending == old(pending)[reqId := r.value]
      ensures r.Err? ==> pending == old(pending) && (r.error == Shutdown || r.error == InvalidArgument)
    {
      if closed {
        return Err(Shutdown);
      }
      if reqId in pending {
        return Err(InvalidArgument);
      }
      var token := new CancellationToken();
      pending := pending[reqId := token];
      r := Ok(token);
    }

    method RetireRequest(reqId: nat) returns (was: bool)
      modifies this`pending
      ensures was <==> reqId in old(pending)
      ensures pending == old(pending) - {reqId}
    {
      was := reqId in pending;
      pending := pending - {reqId};
    }

    method CancelRequest(reqId: nat)
      modifies if reqId in pending then {pending[reqId]} else {}
      ensures reqId in pending ==> pending[reqId].cancelled
    {
      if reqId in pending {
        pending[reqId].CancelNow();
      }
    }

    /** The end of a request task: retire and enqueue under one lock, or hand the result back to be dropped. */
    method FinishRequest(reqId: nat, result: Pending) returns (released: Option<nat>)
      modifies this`pending, queue
      ensures pending == old(pending) - {reqId}
      ensures reqId in old(pending) ==> queue.View() == Queue.Push(old(queue.View()), result)
      ensures reqId !in old(pending) ==> queue.View() == old(queue.View())
      ensures released == if reqId in old(pending) && !old(queue.closed) then None else result.Carried()
    {
      var was := RetireRequest(reqId);
      if was {
        released := queue.PushBack(result);
      } else {
        released := result.Carried();
      }
    }

    /** One turn of the drain: the token is cancelled and the id answered. */
    method AnswerWithShutdown(id: nat, message: seq<byte>)
      requires id in pending
      modifies this`pending, queue, pending[id]
      ensures pending == old(pending) - {id} && old(pending)[id].cancelled
      ensures queue.View() == Queue.Push(old(queue.View()), ErrorOf(id, KT_ERR_SHUTDOWN, message))
    {
      var token := pending[id];
      pending := pending - {id};
      token.CancelNow();
      var released := queue.PushBack(ErrorOf(id, KT_ERR_SHUTDOWN, message));
    }

    /** That turn, as a move of `id` from what is pending to what has been answered. */
    method DrainOneOf(ghost all: map<nat, CancellationToken>, ghost order: seq<nat>, id: nat, message: seq<byte>)
      requires id in pending && Parted(all, pending, order) && AllCancelled(all, order)
      modifies this`pending, queue, pending[id]
      ensures pending == old(pending) - {id} && Parted(all, pending, order + [id]) && AllCancelled(all, order + [id])
      ensures queue.View() == Queue.Push(old(queue.View()), ErrorOf(id, KT_ERR_SHUTDOWN, message))
    {
      PartedMoves(all, pending, order, id);
      AnswerWithShutdown(id, message);
    }

    /**
     Every outstanding request is cancelled and answered once, in the order `order` that the hash map
     happens to yield; then the queue closes.
     */
    method DrainPendingForShutdown(message: seq<byte>) returns (ghost order: seq<nat>)
      modifies this, queue, pending.Values
      ensures closed && pending == map[] && queue.closed && queue.wakes == old(queue.wakes)
      ensures forall j, k :: 0 <= j < k < |order| ==> order[j] != order[k]
      ensures forall id :: id in order <==> id in old(pending)
      ensures forall id :: id in old(pending) ==> old(pending)[id].cancelled
      ensures queue.queue == Answered(old(queue.queue), old(queue.closed), order, message)
    {
      closed := true;
      order := [];
      ghost var all := pending;
      while pending != map[]
        invariant closed && queue.closed == old(queue.closed) && queue.wakes == old(queue.wakes)
        invariant Parted(all, pending, order) && AllCancelled(all, order)
        invariant queue.queue == Answered(old(queue.queue), queue.closed, order, message)
        decreases pending.Keys
      {
        var id :| id in pending;
        assert pending[id] in all.Values;
        AnsweredGrows(old(queue.queue), queue.closed, order, id, message);
        DrainOneOf(all, order, id, message);
        order := order + [id];
      }
      queue.Shut();
    }
  }
}
