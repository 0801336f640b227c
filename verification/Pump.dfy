/**
 The JVM pump: callers that register a continuation and issue a request, the pump thread that
 dispatches completions, and what happens when that thread stops.

 Each map operation, flag access and continuation operation is one step. Removing an id from the
 pending map is what gives a thread the right to resume its continuation; the start-failure path
 alone resumes without having won that removal, and the last section shows what that costs.
 */
module Pump {
  import opened Bridge
  import Runs

  /** What a continuation was resumed with; `handle` says the completion carries a native handle. */
  datatype Outcome = Value(handle: bool) | Failure

  /** `Abandoned`: cancelled before anyone resumed it. `Dropped`: resumed, but cancelled before its coroutine ran. */
  datatype Cont =
    | Active
    | Resumed(outcome: Outcome)
    | Consumed(outcome: Outcome)
    | Dropped
    | Abandoned

  /** Where the caller is inside `request`. From `Issued` on native code owes exactly one completion; `start` itself may return later. */
  datatype Phase =
    | Inserted
    | Refusing
    | RefuseResume
    | Starting
    | Issued
    | Failing
    | FailCheck
    | FailResume
    | Settled

  /** `dispatched` and `freed` are history: whether the completion was dispatched, and how often its handle was freed. */
  datatype Request = Request(cont: Cont, phase: Phase, threw: bool, dispatched: Option<bool>, freed: nat)

  datatype Item = Item(id: nat, handle: bool)

  datatype Thread =
    | Loop
    | Resuming(item: Item)
    | Stopping
    | NeedKeys
    | FailingAll(list: seq<nat>)
    | Removed(id: nat, list: seq<nat>)
    | FailingOne(id: nat, list: seq<nat>)
    | Ended
    | Crashed(list: seq<nat>)

  /** `inflight`: requests native code accepted and has not yet handed to a poll; `batch`: polled, not yet dispatched. */
  datatype World = World(
    requests: seq<Request>,
    registered: set<nat>,
    inflight: set<nat>,
    batch: seq<Item>,
    thread: Thread,
    running: bool,
    dead: bool)

  datatype Step =
    | NewRequest
    | CheckFlags(id: nat)
    | Refuse(id: nat)
    | ResumeRefused(id: nat)
    | NativeAccepts(id: nat)
    | StartThrows(id: nat)
    | FailRemove(id: nat)
    | FailLooks(id: nat)
    | FailResumes(id: nat)
    | CancelCaller(id: nat)
    | Consume(id: nat)
    | Close
    | Poll(id: nat, handle: bool)
    | DispatchRemove
    | DispatchResume
    | StopLoop
    | SetDead
    | TakeKeys(list: seq<nat>)
    | FailNext
    | FailPendingLooks
    | FailPendingResumes

  predicate In(w: World, id: nat, phase: Phase) {
    id < |w.requests| && w.requests[id].phase == phase
  }

  predicate Enabled(w: World, step: Step) {
    match step
    case NewRequest => true
    case CheckFlags(id) => In(w, id, Inserted)
    case Refuse(id) => In(w, id, Refusing)
    case ResumeRefused(id) => In(w, id, RefuseResume)
    case NativeAccepts(id) => In(w, id, Starting)
    case StartThrows(id) => In(w, id, Starting)
    case FailRemove(id) => In(w, id, Failing)
    case FailLooks(id) => In(w, id, FailCheck)
    case FailResumes(id) => In(w, id, FailResume)
    case CancelCaller(id) => id < |w.requests| && (w.requests[id].cont.Active? || w.requests[id].cont.Resumed?)
    case Consume(id) => id < |w.requests| && w.requests[id].cont.Resumed?
    case Close => true
    case Poll(id, _) => w.thread.Loop? && id in w.inflight
    case DispatchRemove => w.thread.Loop? && w.batch != []
    case DispatchResume => w.thread.Resuming? && w.thread.item.id < |w.requests|
    case StopLoop => w.thread.Loop?
    case SetDead => w.thread.Stopping?
    case TakeKeys(list) => w.thread.NeedKeys? && (forall id :: id in w.registered ==> id in list)
    case FailNext => w.thread.FailingAll?
    case FailPendingLooks => w.thread.Removed? && w.thread.id < |w.requests|
    case FailPendingResumes => w.thread.FailingOne? && w.thread.id < |w.requests|
  }

  function Put(w: World, id: nat, r: Request): World
    requires id < |w.requests|
  {
    w.(requests := w.requests[id := r])
  }

  /** A continuation that has been resumed once refuses a second time; one that was cancelled ignores it. */
  predicate Collides(c: Cont) {
    c.Resumed? || c.Consumed? || c.Dropped?
  }

  function ResumeWithException(r: Request): Request {
    if r.cont.Active? then r.(cont := Resumed(Failure)) else r
  }

  function Discard(r: Request, handle: bool): Request {
    if handle then r.(freed := r.freed + 1) else r
  }

  /** `resume` with the discard handler: a cancelled continuation frees what the completion carried. */
  function ResumeWithValue(r: Request, handle: bool): Request {
    if r.cont.Active? then r.(cont := Resumed(Value(handle)))
    else if r.cont.Abandoned? then Discard(r, handle)
    else r
  }

  function CancelCont(r: Request): Request {
    match r.cont
    case Active => r.(cont := Abandoned)
    case Resumed(Value(handle)) => Discard(r, handle).(cont := Dropped)
    case Resumed(Failure) => r.(cont := Dropped)
    case _ => r
  }

  /** The steps of a request's own caller. */
  predicate CallerStep(step: Step) {
    match step
    case CheckFlags(_) | Refuse(_) | ResumeRefused(_) | NativeAccepts(_) | StartThrows(_) => true
    case FailRemove(_) | FailLooks(_) | FailResumes(_) | CancelCaller(_) | Consume(_) => true
    case _ => false
  }

  /** What a caller's step does to its own request, and whether the request stays registered. */
  function CallerEffect(r: Request, step: Step, refused: bool, registered: bool): (Request, bool)
    requires CallerStep(step)
  {
    match step
    case CheckFlags(_) => (r.(phase := if refused then Refusing else Starting), registered)
    case Refuse(_) => (r.(phase := if registered then RefuseResume else Settled), false)
    case ResumeRefused(_) => (ResumeWithException(r).(phase := Settled), registered)
    case NativeAccepts(_) => (r.(phase := Issued), registered)
    case StartThrows(_) => (r.(phase := Failing, threw := true), registered)
    case FailRemove(_) => (r.(phase := FailCheck), false)
    case FailLooks(_) => (r.(phase := if r.cont.Active? then FailResume else Settled), registered)
    case FailResumes(_) => (ResumeWithException(r).(phase := Settled), registered)
    case CancelCaller(_) => (CancelCont(r), registered)
    case Consume(_) => (if r.cont.Resumed? then r.(cont := Consumed(r.cont.outcome)) else r, registered)
  }

  function Settle(w: World, id: nat, r: Request, stays: bool, accepted: bool): World
    requires id < |w.requests|
  {
    Put(w, id, r).(
      registered := if stays then w.registered else w.registered - {id},
      inflight := if accepted then w.inflight + {id} else w.inflight)
  }

  function DoCaller(w: World, step: Step): World
    requires Enabled(w, step) && CallerStep(step)
  {
    var (r, stays) := CallerEffect(w.requests[step.id], step, w.dead || !w.running, step.id in w.registered);
    Settle(w, step.id, r, stays, step.NativeAccepts?)
  }

  /** The steps of the pump thread, and `close`. */
  function DoThread(w: World, step: Step): World
    requires Enabled(w, step) && !CallerStep(step) && !step.NewRequest?
  {
    match step
    case Close => w.(running := false)
    case Poll(id, handle) => w.(inflight := w.inflight - {id}, batch := w.batch + [Item(id, handle)])
    case DispatchRemove =>
      var item := w.batch[0];
      var rest := w.(batch := w.batch[1..]);
      if item.id in w.registered then rest.(registered := w.registered - {item.id}, thread := Resuming(item))
      else if item.id < |w.requests|
      then Put(rest, item.id, Discard(w.requests[item.id], item.handle).(dispatched := Some(item.handle)))
      else rest
    case DispatchResume =>
      var item := w.thread.item;
      var r := w.requests[item.id].(dispatched := Some(item.handle));
      if Collides(r.cont) then Put(w, item.id, r).(thread := Stopping, batch := [])
      else Put(w, item.id, ResumeWithValue(r, item.handle)).(thread := Loop)
    case StopLoop => w.(thread := Stopping, batch := [])
    case SetDead => w.(dead := true, thread := NeedKeys)
    case TakeKeys(list) => w.(thread := FailingAll(list))
    case FailNext =>
      var list := w.thread.list;
      if list == [] then w.(thread := Ended)
      else if list[0] in w.registered
      then w.(registered := w.registered - {list[0]}, thread := Removed(list[0], list[1..]))
      else w.(thread := FailingAll(list[1..]))
    case FailPendingLooks =>
      var t := w.thread;
      w.(thread := if w.requests[t.id].cont.Active? then FailingOne(t.id, t.list) else FailingAll(t.list))
    case FailPendingResumes =>
      var t := w.thread;
      if Collides(w.requests[t.id].cont) then w.(thread := Crashed(t.list))
      else Put(w, t.id, ResumeWithException(w.requests[t.id])).(thread := FailingAll(t.list))
  }

  function AddRequest(w: World): World {
    w.(requests := w.requests + [Request(Active, Inserted, false, None, 0)], registered := w.registered + {|w.requests|})
  }

  function Do(w: World, step: Step): World
    requires Enabled(w, step)
  {
    if step.NewRequest? then AddRequest(w) else if CallerStep(step) then DoCaller(w, step) else DoThread(w, step)
  }

  const NEW_WORLD: World := World([], {}, {}, [], Loop, true, false)

  ghost predicate Linked(run: seq<World>, steps: seq<Step>, k: nat)
    requires k < |steps| && |run| == |steps| + 1
  {
    Enabled(run[k], steps[k]) && run[k + 1] == Do(run[k], steps[k])
  }

  ghost predicate IsRun(run: seq<World>, steps: seq<Step>) {
    |run| == |steps| + 1 && run[0] == NEW_WORLD && forall k: nat :: k < |steps| ==> Linked(run, steps, k)
  }

  // ---------------------------------------------------------------------------------------------
  // Who may resume whom

  /** The pump thread has removed `id` and is about to resume it. */
  predicate HeldByThread(w: World, id: nat) {
    match w.thread
    case Resuming(item) => item.id == id
    case Removed(i, _) => i == id
    case FailingOne(i, _) => i == id
    case _ => false
  }

  /** The caller still owes this continuation an answer. */
  predicate HeldByCaller(r: Request) {
    r.phase.RefuseResume? || r.phase.FailCheck? || r.phase.FailResume?
  }

  /** Of the map, the pump thread and the caller, one party may resume; `held` says the pump thread may. */
  predicate OneResumer(r: Request, registered: bool, held: bool) {
    && (r.phase.Failing? || r.phase.FailCheck? || r.phase.FailResume? ==> r.threw)
    && (r.threw ==> r.phase.Failing? || r.phase.FailCheck? || r.phase.FailResume? || r.phase.Settled?)
    && (registered ==> r.cont.Active? || r.cont.Abandoned?)
    && (registered || held ==> !HeldByCaller(r) || r.threw)
    && (registered ==> !held && !HeldByCaller(r) && !r.phase.Settled?)
    && ((held || r.phase.RefuseResume?) && !r.threw ==> r.cont.Active? || r.cont.Abandoned?)
    && (held && !r.phase.Settled? ==> r.cont.Active? || r.cont.Abandoned?)
    && (r.cont.Active? ==> registered || held || HeldByCaller(r))
  }

  ghost predicate Owned(w: World, id: nat)
    requires id < |w.requests|
  {
    OneResumer(w.requests[id], id in w.registered, HeldByThread(w, id))
  }

  /** Nobody but a caller still about to look at the flags can be registered without being on the list. */
  ghost predicate Listed(w: World, id: nat)
    requires id < |w.requests|
  {
    id in w.registered && w.dead && !w.requests[id].phase.Inserted? && !w.requests[id].phase.Refusing? ==>
      match w.thread
      case NeedKeys => true
      case FailingAll(list) => id in list
      case Removed(_, list) => id in list
      case FailingOne(_, list) => id in list
      case Crashed(list) => id in list
      case _ => false
  }

  ghost predicate Sound(w: World) {
    && (w.dead <==> !(w.thread.Loop? || w.thread.Resuming? || w.thread.Stopping?))
    && (forall id :: id in w.registered ==> id < |w.requests|)
    && (w.thread.Resuming? ==> w.thread.item.id < |w.requests|)
    && (w.thread.Removed? || w.thread.FailingOne? ==> w.thread.id < |w.requests|)
    && (w.thread.Crashed? ==> exists id :: 0 <= id < |w.requests| && w.requests[id].threw)
  }

  // ---------------------------------------------------------------------------------------------
  // Where a completion's handle is

  predicate InBatch(batch: seq<Item>, id: nat) {
    exists k :: 0 <= k < |batch| && batch[k].id == id
  }

  predicate Undispatched(w: World, id: nat) {
    id in w.inflight || InBatch(w.batch, id) || (w.thread.Resuming? && w.thread.item.id == id)
  }

  predicate HasValue(c: Cont) {
    (c.Resumed? || c.Consumed?) && c.outcome.Value?
  }

  /** A dispatched handle is with its caller, or was freed exactly once; an undispatched one was not freed. */
  predicate HandleOk(r: Request, undispatched: bool) {
    && (undispatched ==> r.dispatched == None && r.phase == Issued)
    && (r.dispatched.Some? ==> r.phase == Issued)
    && (r.phase == Issued ==> !r.threw)
    && (HasValue(r.cont) ==> r.dispatched == Some(r.cont.outcome.handle))
    && r.freed == if r.dispatched == Some(true) && !HasValue(r.cont) then 1 else 0
  }

  ghost predicate HandleAccounted(w: World, id: nat)
    requires id < |w.requests|
  {
    HandleOk(w.requests[id], Undispatched(w, id))
  }

  ghost predicate BatchDistinct(w: World) {
    && (forall j, k :: 0 <= j < k < |w.batch| ==> w.batch[j].id != w.batch[k].id)
    && (forall k :: 0 <= k < |w.batch| ==> w.batch[k].id !in w.inflight && w.batch[k].id < |w.requests|)
    && (w.thread.Resuming? ==> w.thread.item.id !in w.inflight && !InBatch(w.batch, w.thread.item.id))
    && (forall id :: id in w.inflight ==> id < |w.requests|)
  }

  ghost predicate Inv(w: World) {
    Sound(w) && BatchDistinct(w) && forall id :: 0 <= id < |w.requests| ==> Owned(w, id) && Listed(w, id) && HandleAccounted(w, id)
  }

  predicate CallerMay(r: Request, step: Step)
    requires CallerStep(step)
  {
    match step
    case CheckFlags(_) => r.phase == Inserted
    case Refuse(_) => r.phase == Refusing
    case ResumeRefused(_) => r.phase == RefuseResume
    case NativeAccepts(_) => r.phase == Starting
    case StartThrows(_) => r.phase == Starting
    case FailRemove(_) => r.phase == Failing
    case FailLooks(_) => r.phase == FailCheck
    case FailResumes(_) => r.phase == FailResume
    case CancelCaller(_) => r.cont.Active? || r.cont.Resumed?
    case Consume(_) => r.cont.Resumed?
  }

  lemma CallerEffectIsSound(r: Request, step: Step, refused: bool, registered: bool, held: bool, undispatched: bool)
    requires CallerStep(step) && CallerMay(r, step)
    requires OneResumer(r, registered, held) && HandleOk(r, undispatched)
    ensures var (r', stays) := CallerEffect(r, step, refused, registered);
            && OneResumer(r', registered && stays, held)
            && HandleOk(r', undispatched || step.NativeAccepts?)
  {
  }

  lemma SettleKeepsOwned(w: World, at: nat, r: Request, stays: bool, accepted: bool, id: nat)
    requires at < |w.requests| && id < |w.requests| && Owned(w, id) && HandleAccounted(w, id)
    requires OneResumer(r, at in w.registered && stays, HeldByThread(w, at))
    requires HandleOk(r, Undispatched(w, at) || accepted)
    ensures Owned(Settle(w, at, r, stays, accepted), id) && HandleAccounted(Settle(w, at, r, stays, accepted), id)
  {
  }

  /** A caller's own step touches only its own request, and at most its own registration. */
  lemma CallerKeepsOwned(w: World, step: Step, id: nat)
    requires Enabled(w, step) && CallerStep(step) && id < |w.requests| && Owned(w, id) && HandleAccounted(w, id)
    requires step.id < |w.requests| && Owned(w, step.id) && HandleAccounted(w, step.id)
    ensures |DoCaller(w, step).requests| == |w.requests|
    ensures Owned(DoCaller(w, step), id) && HandleAccounted(DoCaller(w, step), id)
  {
    var at := step.id;
    var refused := w.dead || !w.running;
    CallerEffectIsSound(w.requests[at], step, refused, at in w.registered, HeldByThread(w, at), Undispatched(w, at));
    var (r, stays) := CallerEffect(w.requests[at], step, refused, at in w.registered);
    SettleKeepsOwned(w, at, r, stays, step.NativeAccepts?, id);
  }

  lemma CallerKeepsListed(w: World, step: Step, id: nat)
    requires Enabled(w, step) && CallerStep(step) && id < |w.requests| && Sound(w) && Owned(w, id) && Listed(w, id)
    ensures |DoCaller(w, step).requests| == |w.requests| && Listed(DoCaller(w, step), id)
  {
  }

  /** Handing the right to resume from the map to the pump thread, or dropping it. */
  lemma DispatchKeepsOwned(w: World, step: Step, id: nat)
    requires Enabled(w, step) && (step.DispatchRemove? || step.DispatchResume?) && id < |w.requests|
    requires Owned(w, id) && HandleAccounted(w, id)
    ensures |DoThread(w, step).requests| == |w.requests| && Owned(DoThread(w, step), id)
  {
    if step.DispatchRemove? { assert InBatch(w.batch, w.batch[0].id); }
  }

  lemma FailKeepsOwned(w: World, step: Step, id: nat)
    requires Enabled(w, step) && (step.FailNext? || step.FailPendingLooks? || step.FailPendingResumes?)
    requires id < |w.requests| && Owned(w, id)
    ensures |DoThread(w, step).requests| == |w.requests| && Owned(DoThread(w, step), id)
  {
  }

  lemma ThreadKeepsOwned(w: World, step: Step, id: nat)
    requires Enabled(w, step) && !CallerStep(step) && !step.NewRequest? && id < |w.requests|
    requires Owned(w, id) && HandleAccounted(w, id)
    ensures |DoThread(w, step).requests| == |w.requests| && Owned(DoThread(w, step), id)
  {
    match step
    case DispatchRemove | DispatchResume => DispatchKeepsOwned(w, step, id);
    case FailNext | FailPendingLooks | FailPendingResumes => FailKeepsOwned(w, step, id);
    case _ =>
  }

  lemma ThreadKeepsListed(w: World, step: Step, id: nat)
    requires Enabled(w, step) && !CallerStep(step) && !step.NewRequest? && id < |w.requests| && Sound(w)
    requires Listed(w, id)
    ensures |DoThread(w, step).requests| == |w.requests| && Listed(DoThread(w, step), id)
  {
  }

  lemma QuietThreadKeepsHandles(w: World, step: Step, id: nat)
    requires Enabled(w, step) && !CallerStep(step) && !step.NewRequest? && id < |w.requests|
    requires !step.Poll? && !step.DispatchRemove? && !step.DispatchResume?
    requires Owned(w, id) && HandleAccounted(w, id)
    ensures |DoThread(w, step).requests| == |w.requests| && HandleAccounted(DoThread(w, step), id)
  {
  }

  lemma PollKeepsHandles(w: World, polled: nat, handle: bool, id: nat)
    requires Inv(w) && Enabled(w, Poll(polled, handle)) && id < |w.requests|
    ensures HandleAccounted(Do(w, Poll(polled, handle)), id)
  {
    assert HandleAccounted(w, id);
    var w' := Do(w, Poll(polled, handle));
    if k :| 0 <= k < |w'.batch| && w'.batch[k].id == id {
      assert k < |w.batch| ==> w'.batch[k] == w.batch[k];
    }
  }

  lemma DispatchRemoveKeepsHandles(w: World, id: nat)
    requires Inv(w) && Enabled(w, DispatchRemove) && id < |w.requests|
    ensures |Do(w, DispatchRemove).requests| == |w.requests| && HandleAccounted(Do(w, DispatchRemove), id)
  {
    assert Owned(w, id) && HandleAccounted(w, id);
    var w' := Do(w, DispatchRemove);
    assert InBatch(w.batch, w.batch[0].id);
    if InBatch(w'.batch, id) {
      var k :| 0 <= k < |w'.batch| && w'.batch[k].id == id;
      assert w.batch[k + 1].id == id;
      assert id != w.batch[0].id;
    }
  }

  lemma DispatchResumeKeepsHandles(w: World, id: nat)
    requires Inv(w) && Enabled(w, DispatchResume) && id < |w.requests|
    ensures |Do(w, DispatchResume).requests| == |w.requests| && HandleAccounted(Do(w, DispatchResume), id)
  {
    assert Owned(w, id) && HandleAccounted(w, id);
  }

  lemma QuietStepKeepsBatch(w: World, step: Step)
    requires BatchDistinct(w) && Enabled(w, step) && !step.NativeAccepts? && !step.Poll? && !step.DispatchRemove?
    ensures BatchDistinct(Do(w, step))
  {
  }

  lemma AcceptKeepsBatch(w: World, id: nat)
    requires Inv(w) && Enabled(w, NativeAccepts(id))
    ensures BatchDistinct(DoCaller(w, NativeAccepts(id)))
  {
    assert Owned(w, id) && HandleAccounted(w, id);
    forall k | 0 <= k < |w.batch| ensures w.batch[k].id != id { assert InBatch(w.batch, w.batch[k].id); }
  }

  lemma DispatchRemoveKeepsBatch(w: World)
    requires BatchDistinct(w) && Enabled(w, DispatchRemove)
    ensures BatchDistinct(DoThread(w, DispatchRemove))
  {
    var w' := DoThread(w, DispatchRemove);
    forall k | 0 <= k < |w'.batch| ensures w'.batch[k].id != w.batch[0].id { assert w'.batch[k] == w.batch[k + 1]; }
  }

  lemma PollKeepsBatch(w: World, id: nat, handle: bool)
    requires Inv(w) && Enabled(w, Poll(id, handle))
    ensures BatchDistinct(Do(w, Poll(id, handle)))
  {
  }

  lemma StepKeepsBatch(w: World, step: Step)
    requires Inv(w) && Enabled(w, step)
    ensures BatchDistinct(Do(w, step))
  {
    match step
    case NativeAccepts(id) => AcceptKeepsBatch(w, id);
    case Poll(id, handle) => PollKeepsBatch(w, id, handle);
    case DispatchRemove => DispatchRemoveKeepsBatch(w);
    case _ => QuietStepKeepsBatch(w, step);
  }

  lemma StepKeepsSound(w: World, step: Step)
    requires Inv(w) && Enabled(w, step)
    ensures Sound(Do(w, step))
  {
    var w' := Do(w, step);
    if step.FailPendingResumes? {
      assert Owned(w, w.thread.id);
    } else if step.DispatchRemove? {
    } else if w.thread.Crashed? {
      var id :| 0 <= id < |w.requests| && w.requests[id].threw;
      assert w'.requests[id].threw;
    }
  }

  lemma StepKeepsRequest(w: World, step: Step, id: nat)
    requires Inv(w) && Enabled(w, step) && id < |w.requests|
    ensures id < |Do(w, step).requests|
    ensures Owned(Do(w, step), id) && Listed(Do(w, step), id) && HandleAccounted(Do(w, step), id)
  {
    assert Owned(w, id) && Listed(w, id) && HandleAccounted(w, id);
    if CallerStep(step) {
      assert Owned(w, step.id) && HandleAccounted(w, step.id);
      CallerKeepsOwned(w, step, id);
      CallerKeepsListed(w, step, id);
    } else if !step.NewRequest? {
      ThreadKeepsOwned(w, step, id);
      ThreadKeepsListed(w, step, id);
      match step
      case Poll(polled, handle) => PollKeepsHandles(w, polled, handle, id);
      case DispatchRemove => DispatchRemoveKeepsHandles(w, id);
      case DispatchResume => DispatchResumeKeepsHandles(w, id);
      case _ => QuietThreadKeepsHandles(w, step, id);
    }
  }

  /** A new request starts out registered, active and unanswered. */
  lemma NewRequestIsSound(w: World)
    requires Inv(w)
    ensures var w' := Do(w, NewRequest);
            Owned(w', |w.requests|) && Listed(w', |w.requests|) && HandleAccounted(w', |w.requests|)
  {
    var id := |w.requests|;
    assert id !in w.registered && id !in w.inflight && !InBatch(w.batch, id);
    assert !HeldByThread(w, id);
  }

  lemma StepKeepsInv(w: World, step: Step)
    requires Inv(w) && Enabled(w, step)
    ensures Inv(Do(w, step))
  {
    StepKeepsBatch(w, step);
    StepKeepsSound(w, step);
    var w' := Do(w, step);
    if step.NewRequest? { NewRequestIsSound(w); }
    forall id | 0 <= id < |w'.requests| ensures Owned(w', id) && Listed(w', id) && HandleAccounted(w', id) {
      if id < |w.requests| { StepKeepsRequest(w, step, id); }
    }
  }

  lemma {:induction false} RunsAreSafe(run: seq<World>, steps: seq<Step>, k: nat)
    requires IsRun(run, steps) && k < |run|
    ensures Inv(run[k])
  {
    if k > 0 {
      RunsAreSafe(run, steps, k - 1);
      assert Linked(run, steps, k - 1);
      StepKeepsInv(run[k - 1], steps[k - 1]);
    }
  }

  // ---------------------------------------------------------------------------------------------
  // What that means

  /**
   A handle-carrying completion that was dispatched is either with a caller whose continuation was
   active, or has been freed exactly once; nothing else is ever freed.
   */
  lemma HandlesAreFreedOnce(run: seq<World>, steps: seq<Step>, k: nat, id: nat)
    requires IsRun(run, steps) && k < |run| && id < |run[k].requests|
    ensures var r := run[k].requests[id];
            && (r.freed == 1 <==> r.dispatched == Some(true) && !HasValue(r.cont))
            && r.freed <= 1
            && (r.dispatched == None ==> r.freed == 0)
  {
    RunsAreSafe(run, steps, k);
    assert HandleAccounted(run[k], id);
  }

  /**
   Once the pump thread has ended, every request native code accepted has been resumed or was
   cancelled, and whoever is still registered has yet to look at the flags and will see them set.
   */
  lemma NoCallerIsStranded(run: seq<World>, steps: seq<Step>, k: nat, id: nat)
    requires IsRun(run, steps) && k < |run| && run[k].thread.Ended? && id < |run[k].requests|
    ensures run[k].dead
    ensures run[k].requests[id].phase == Issued ==> !run[k].requests[id].cont.Active?
    ensures id in run[k].registered ==> run[k].requests[id].phase.Inserted? || run[k].requests[id].phase.Refusing?
    ensures run[k].requests[id].cont.Active? ==>
      id in run[k].registered || HeldByCaller(run[k].requests[id])
  {
    RunsAreSafe(run, steps, k);
    assert Owned(run[k], id) && Listed(run[k], id);
  }

  /** Only a continuation whose `start` threw can be resumed by two parties. */
  lemma CollisionNeedsThrownStart(run: seq<World>, steps: seq<Step>, k: nat, step: Step)
    requires IsRun(run, steps) && k < |run| && Enabled(run[k], step)
    ensures step == DispatchResume ==> !Collides(run[k].requests[run[k].thread.item.id].cont)
    ensures step == FailPendingResumes && Collides(run[k].requests[run[k].thread.id].cont) ==> run[k].requests[run[k].thread.id].threw
    ensures step.ResumeRefused? ==> !Collides(run[k].requests[step.id].cont)
  {
    RunsAreSafe(run, steps, k);
    match step
    case DispatchResume =>
      var id := run[k].thread.item.id;
      assert Owned(run[k], id) && HandleAccounted(run[k], id);
    case FailPendingResumes => assert Owned(run[k], run[k].thread.id);
    case ResumeRefused(id) => assert Owned(run[k], id);
    case _ =>
  }

  // ---------------------------------------------------------------------------------------------
  // What callers get

  predicate HasFailure(c: Cont) {
    (c.Resumed? || c.Consumed?) && c.outcome.Failure?
  }

  /**
   A dispatched completion found its caller's continuation, or one that was cancelled; while the pump runs
   nothing that was polled gets lost on the way; and a caller is failed only when its own start threw or
   the pump is stopping.
   */
  predicate AnswerOk(r: Request, registered: bool, undispatched: bool, looping: bool, stopping: bool, dead: bool) {
    && (r.dispatched.Some? ==> !registered && (HasValue(r.cont) || r.cont.Dropped? || r.cont.Abandoned?))
    && (looping && r.phase == Issued && r.dispatched == None ==> undispatched)
    && (HasFailure(r.cont) ==> r.dispatched == None && (r.threw || dead || (stopping && r.phase == Settled)))
    && (r.phase.Refusing? || r.phase.RefuseResume? ==> stopping)
  }

  predicate Looping(w: World) {
    w.thread.Loop? || w.thread.Resuming?
  }

  ghost predicate Answered(w: World, id: nat)
    requires id < |w.requests|
  {
    AnswerOk(w.requests[id], id in w.registered, Undispatched(w, id), Looping(w), w.dead || !w.running, w.dead)
  }

  lemma CallerKeepsAnswer(r: Request, step: Step, refused: bool, registered: bool, held: bool,
                           undispatched: bool, looping: bool, dead: bool)
    requires CallerStep(step) && CallerMay(r, step)
    requires OneResumer(r, registered, held) && HandleOk(r, undispatched)
    requires AnswerOk(r, registered, undispatched, looping, refused, dead)
    ensures var (r', stays) := CallerEffect(r, step, refused, registered);
            AnswerOk(r', registered && stays, undispatched || step.NativeAccepts?, looping, refused, dead)
  {
  }

  lemma SettleKeepsAnswered(w: World, at: nat, r: Request, stays: bool, accepted: bool, id: nat)
    requires at < |w.requests| && id < |w.requests| && Answered(w, id)
    requires AnswerOk(r, at in w.registered && stays, Undispatched(w, at) || accepted, Looping(w), w.dead || !w.running, w.dead)
    ensures Answered(Settle(w, at, r, stays, accepted), id)
  {
  }

  lemma CallerKeepsAnswered(w: World, step: Step, id: nat)
    requires Enabled(w, step) && CallerStep(step) && id < |w.requests| && step.id < |w.requests|
    requires Owned(w, step.id) && HandleAccounted(w, step.id)
    requires Answered(w, id) && Answered(w, step.id)
    ensures |DoCaller(w, step).requests| == |w.requests| && Answered(DoCaller(w, step), id)
  {
    var at, refused := step.id, w.dead || !w.running;
    CallerKeepsAnswer(w.requests[at], step, refused, at in w.registered, HeldByThread(w, at),
                      Undispatched(w, at), Looping(w), w.dead);
    var (r, stays) := CallerEffect(w.requests[at], step, refused, at in w.registered);
    SettleKeepsAnswered(w, at, r, stays, step.NativeAccepts?, id);
  }

  lemma DispatchRemoveKeepsAnswered(w: World, id: nat)
    requires Inv(w) && Enabled(w, DispatchRemove) && id < |w.requests| && Answered(w, id)
    ensures |DoThread(w, DispatchRemove).requests| == |w.requests| && Answered(DoThread(w, DispatchRemove), id)
  {
    assert Owned(w, id) && HandleAccounted(w, id);
    var w' := DoThread(w, DispatchRemove);
    assert InBatch(w.batch, w.batch[0].id);
    if id != w.batch[0].id && InBatch(w.batch, id) {
      var k :| 0 <= k < |w.batch| && w.batch[k].id == id;
      assert w'.batch[k - 1].id == id;
    }
  }

  lemma DispatchResumeKeepsAnswered(w: World, id: nat)
    requires Inv(w) && Enabled(w, DispatchResume) && id < |w.requests| && Answered(w, id)
    ensures |DoThread(w, DispatchResume).requests| == |w.requests| && Answered(DoThread(w, DispatchResume), id)
  {
    assert Owned(w, id) && HandleAccounted(w, id);
    assert Owned(w, w.thread.item.id) && HandleAccounted(w, w.thread.item.id);
  }

  lemma PollKeepsAnswered(w: World, polled: nat, handle: bool, id: nat)
    requires Inv(w) && Enabled(w, Poll(polled, handle)) && id < |w.requests| && Answered(w, id)
    ensures Answered(DoThread(w, Poll(polled, handle)), id)
  {
    var w' := DoThread(w, Poll(polled, handle));
    assert w'.batch[|w.batch|].id == polled;
    if k :| 0 <= k < |w.batch| && w.batch[k].id == id { assert w'.batch[k].id == id; }
  }

  lemma FailKeepsAnswered(w: World, step: Step, id: nat)
    requires Inv(w) && Enabled(w, step) && (step.FailNext? || step.FailPendingLooks? || step.FailPendingResumes?)
    requires id < |w.requests| && Answered(w, id)
    ensures |DoThread(w, step).requests| == |w.requests| && Answered(DoThread(w, step), id)
  {
    assert Owned(w, id) && HandleAccounted(w, id);
  }

  lemma ThreadKeepsAnswered(w: World, step: Step, id: nat)
    requires Inv(w) && Enabled(w, step) && !CallerStep(step) && !step.NewRequest? && id < |w.requests| && Answered(w, id)
    ensures |DoThread(w, step).requests| == |w.requests| && Answered(DoThread(w, step), id)
  {
    match step
    case DispatchRemove => DispatchRemoveKeepsAnswered(w, id);
    case DispatchResume => DispatchResumeKeepsAnswered(w, id);
    case Poll(polled, handle) => PollKeepsAnswered(w, polled, handle, id);
    case FailNext | FailPendingLooks | FailPendingResumes => FailKeepsAnswered(w, step, id);
    case _ =>
  }

  ghost predicate AllAnswered(w: World) {
    forall id :: 0 <= id < |w.requests| ==> Answered(w, id)
  }

  lemma StepKeepsAnswered(w: World, step: Step)
    requires Inv(w) && Enabled(w, step) && AllAnswered(w)
    ensures AllAnswered(Do(w, step))
  {
    var w' := Do(w, step);
    forall id | 0 <= id < |w'.requests| ensures Answered(w', id) {
      if step.NewRequest? {
        assert id < |w.requests| ==> Answered(w, id);
      } else if CallerStep(step) {
        assert Owned(w, step.id) && HandleAccounted(w, step.id) && Answered(w, step.id);
        CallerKeepsAnswered(w, step, id);
      } else {
        ThreadKeepsAnswered(w, step, id);
      }
    }
  }

  /** Over every run: see `AnswerOk`. */
  lemma {:induction false} CallersGetTheirCompletion(run: seq<World>, steps: seq<Step>, k: nat)
    requires IsRun(run, steps) && k < |run|
    ensures AllAnswered(run[k])
  {
    if k > 0 {
      CallersGetTheirCompletion(run, steps, k - 1);
      RunsAreSafe(run, steps, k - 1);
      assert Linked(run, steps, k - 1);
      StepKeepsAnswered(run[k - 1], steps[k - 1]);
    }
  }

  lemma StepHoldsNothing(w: World, step: Step)
    requires Enabled(w, step) && (Looping(w) || w.batch == [])
    ensures Looping(Do(w, step)) || Do(w, step).batch == []
  {
  }

  /** A pump thread that has stopped polling holds no record of its last batch any more. */
  lemma {:induction false} StoppedHoldsNothing(run: seq<World>, steps: seq<Step>, k: nat)
    requires IsRun(run, steps) && k < |run|
    ensures Looping(run[k]) || run[k].batch == []
  {
    if k > 0 {
      StoppedHoldsNothing(run, steps, k - 1);
      assert Linked(run, steps, k - 1);
      StepHoldsNothing(run[k - 1], steps[k - 1]);
    }
  }

  /** Dispatching never stops the pump: it leaves its loop when polling ends, and for nothing else. */
  lemma {:induction false} PumpRunsUntilPollingEnds(run: seq<World>, steps: seq<Step>, k: nat) returns (j: nat)
    requires IsRun(run, steps) && k < |run| && !Looping(run[k])
    ensures j < k && steps[j] == StopLoop
  {
    assert Linked(run, steps, k - 1);
    if Looping(run[k - 1]) {
      CollisionNeedsThrownStart(run, steps, k - 1, steps[k - 1]);
      j := k - 1;
    } else {
      j := PumpRunsUntilPollingEnds(run, steps, k - 1);
    }
  }

  predicate GaveUp(c: Cont) {
    c.Abandoned? || c.Dropped?
  }

  lemma CallersStayGone(w: World, step: Step, id: nat)
    requires Enabled(w, step) && CallerStep(step) && id < |w.requests| && (GaveUp(w.requests[id].cont) || step == CancelCaller(id))
    ensures id < |DoCaller(w, step).requests| && GaveUp(DoCaller(w, step).requests[id].cont)
  {
    var (r, _) := CallerEffect(w.requests[step.id], step, w.dead || !w.running, step.id in w.registered);
    assert GaveUp(w.requests[step.id].cont) || step == CancelCaller(step.id) ==> GaveUp(r.cont);
  }

  lemma ThreadRevivesNobody(w: World, step: Step, id: nat)
    requires Enabled(w, step) && !CallerStep(step) && !step.NewRequest? && id < |w.requests| && GaveUp(w.requests[id].cont)
    ensures id < |DoThread(w, step).requests| && GaveUp(DoThread(w, step).requests[id].cont)
  {
  }

  lemma GivingUpStays(w: World, step: Step, id: nat)
    requires Enabled(w, step) && id < |w.requests| && (GaveUp(w.requests[id].cont) || step == CancelCaller(id))
    ensures id < |Do(w, step).requests| && GaveUp(Do(w, step).requests[id].cont)
  {
    if CallerStep(step) {
      CallersStayGone(w, step, id);
    } else if !step.NewRequest? {
      ThreadRevivesNobody(w, step, id);
    }
  }

  /** A cancelled caller is handed nothing any more, even what its continuation had just been resumed with. */
  lemma {:induction false} CancelledCallersGetNothing(run: seq<World>, steps: seq<Step>, j: nat, k: nat, id: nat)
    requires IsRun(run, steps) && j < k < |run| && steps[j] == CancelCaller(id)
    ensures id < |run[k].requests| && GaveUp(run[k].requests[id].cont)
    decreases k
  {
    assert Linked(run, steps, k - 1);
    if j < k - 1 { CancelledCallersGetNothing(run, steps, j, k - 1, id); }
    GivingUpStays(run[k - 1], steps[k - 1], id);
  }

  lemma FlagsStay(w: World, step: Step)
    requires Enabled(w, step)
    ensures (!w.running || step == Close ==> !Do(w, step).running) && (w.dead ==> Do(w, step).dead)
  {
  }

  lemma {:induction false} ClosedStaysClosed(run: seq<World>, steps: seq<Step>, j: nat, k: nat)
    requires IsRun(run, steps) && j < k < |run| && steps[j] == Close
    ensures !run[k].running
    decreases k
  {
    assert Linked(run, steps, k - 1);
    if j < k - 1 { ClosedStaysClosed(run, steps, j, k - 1); }
    FlagsStay(run[k - 1], steps[k - 1]);
  }

  /** Whoever looks at the flags after `close` is refused. */
  lemma ClosedPumpRefuses(run: seq<World>, steps: seq<Step>, j: nat, k: nat, id: nat)
    requires IsRun(run, steps) && j < k < |steps| && steps[j] == Close && steps[k] == CheckFlags(id)
    ensures id < |run[k + 1].requests| && run[k + 1].requests[id].phase == Refusing
  {
    ClosedStaysClosed(run, steps, j, k);
    assert Linked(run, steps, k);
  }

  lemma ReachesFailResume(w: World, step: Step, id: nat)
    requires Enabled(w, step) && id < |Do(w, step).requests| && Do(w, step).requests[id].phase == FailResume
    ensures id < |w.requests| && (w.requests[id].phase == FailResume || (step == FailLooks(id) && w.requests[id].cont.Active?))
  {
    if CallerStep(step) {
      assert step.id == id || DoCaller(w, step).requests[id] == w.requests[id];
    }
  }

  /** The failure path resumes only what it has found active. */
  lemma {:induction false} FailureLooksFirst(run: seq<World>, steps: seq<Step>, k: nat, id: nat) returns (j: nat)
    requires IsRun(run, steps) && k < |run| && id < |run[k].requests| && run[k].requests[id].phase == FailResume
    ensures j < k && steps[j] == FailLooks(id) && id < |run[j].requests| && run[j].requests[id].cont.Active?
  {
    assert Linked(run, steps, k - 1);
    ReachesFailResume(run[k - 1], steps[k - 1], id);
    if run[k - 1].requests[id].phase == FailResume {
      j := FailureLooksFirst(run, steps, k - 1, id);
    } else {
      j := k - 1;
    }
  }

  // ---------------------------------------------------------------------------------------------
  // Callers and thread come to an end

  function PhaseLeft(phase: Phase): nat {
    match phase
    case Inserted => 5
    case Starting => 4
    case Failing => 3
    case Refusing | FailCheck => 2
    case RefuseResume | FailResume => 1
    case Issued | Settled => 0
  }

  /** The most steps a caller still takes inside `request` and for its continuation. */
  function CallerLeft(r: Request): nat {
    PhaseLeft(r.phase) + if r.cont.Active? then 2 else if r.cont.Resumed? then 1 else 0
  }

  predicate IsCaller(step: Step, id: nat) {
    CallerStep(step) && step.id == id
  }

  lemma ThreadOnlyResumes(w: World, step: Step, id: nat)
    requires Enabled(w, step) && !CallerStep(step) && !step.NewRequest? && id < |w.requests|
    ensures |DoThread(w, step).requests| == |w.requests|
    ensures CallerLeft(DoThread(w, step).requests[id]) <= CallerLeft(w.requests[id])
  {
  }

  lemma CallerMovesOn(w: World, step: Step, id: nat)
    requires Enabled(w, step) && id < |w.requests|
    ensures id < |Do(w, step).requests|
    ensures CallerLeft(Do(w, step).requests[id]) + (if IsCaller(step, id) then 1 else 0) <= CallerLeft(w.requests[id])
  {
    if CallerStep(step) {
      var (r, _) := CallerEffect(w.requests[step.id], step, w.dead || !w.running, step.id in w.registered);
      assert CallerLeft(r) + 1 <= CallerLeft(w.requests[step.id]);
    } else if !step.NewRequest? {
      ThreadOnlyResumes(w, step, id);
    }
  }

  ghost function CallerSteps(steps: seq<Step>, id: nat): nat {
    if steps == [] then 0 else CallerSteps(steps[..|steps| - 1], id) + if IsCaller(steps[|steps| - 1], id) then 1 else 0
  }

  /** A request takes at most seven steps of its own, cancellation and delivery included. */
  lemma {:induction false} CallersTakeSevenSteps(run: seq<World>, steps: seq<Step>, k: nat, id: nat)
    requires IsRun(run, steps) && k < |run|
    ensures CallerSteps(steps[..k], id) + (if id < |run[k].requests| then CallerLeft(run[k].requests[id]) else 7) <= 7
  {
    if k > 0 {
      CallersTakeSevenSteps(run, steps, k - 1, id);
      assert Linked(run, steps, k - 1);
      assert steps[..k][..k - 1] == steps[..k - 1];
      if id < |run[k - 1].requests| { CallerMovesOn(run[k - 1], steps[k - 1], id); }
    }
  }

  /** The most steps the pump thread still takes, should no more be polled. */
  function ThreadLeft(w: World): nat {
    match w.thread
    case Loop => 2 * |w.batch| + 3
    case Resuming(_) => 2 * |w.batch| + 4
    case Stopping => 2
    case NeedKeys => 1
    case FailingAll(list) => 3 * |list| + 1
    case Removed(_, list) => 3 * |list| + 3
    case FailingOne(_, list) => 3 * |list| + 2
    case Ended | Crashed(_) => 0
  }

  predicate ThreadStep(step: Step) {
    || step.DispatchRemove? || step.DispatchResume? || step.StopLoop? || step.SetDead?
    || step.FailNext? || step.FailPendingLooks? || step.FailPendingResumes?
  }

  /** What a step gives the thread to do. */
  function Brings(step: Step): nat {
    match step
    case Poll(_, _) => 2
    case TakeKeys(list) => 3 * |list|
    case _ => 0
  }

  lemma ThreadMovesOn(w: World, step: Step)
    requires Enabled(w, step)
    ensures ThreadLeft(Do(w, step)) + (if ThreadStep(step) then 1 else 0) <= ThreadLeft(w) + Brings(step)
  {
  }

  ghost function Brought(steps: seq<Step>): nat {
    if steps == [] then 0 else Brought(steps[..|steps| - 1]) + Brings(steps[|steps| - 1])
  }

  /** The pump thread takes two steps for each completion polled, three for each straggler, and three to stop. */
  lemma {:induction false} ThreadStepsAreBounded(run: seq<World>, steps: seq<Step>, k: nat)
    requires IsRun(run, steps) && k < |run|
    ensures Runs.Count(steps[..k], ThreadStep) + ThreadLeft(run[k]) <= 3 + Brought(steps[..k])
  {
    if k > 0 {
      ThreadStepsAreBounded(run, steps, k - 1);
      assert Linked(run, steps, k - 1);
      assert steps[..k][..k - 1] == steps[..k - 1];
      Runs.CountNext(steps, k - 1, ThreadStep);
      ThreadMovesOn(run[k - 1], steps[k - 1]);
    }
  }

  /** The pump thread can go on until it has ended, unless it has crashed or has nothing to dispatch. */
  lemma ThreadCanGoOn(w: World) returns (step: Step)
    requires Inv(w) && !w.thread.Ended? && !w.thread.Crashed? && (w.thread.Loop? ==> w.batch != [])
    ensures Enabled(w, step) && (ThreadStep(step) || step.TakeKeys?)
  {
    var all := seq(|w.requests|, i => i);
    assert forall id :: id in w.registered ==> all[id] == id;
    step := match w.thread
            case Loop => DispatchRemove
            case Resuming(_) => DispatchResume
            case Stopping => SetDead
            case NeedKeys => TakeKeys(all)
            case FailingAll(_) => FailNext
            case Removed(_, _) => FailPendingLooks
            case _ => FailPendingResumes;
  }

  // ---------------------------------------------------------------------------------------------
  // When the thread crashes, and whom that strands

  /** The failure path of `request` resumes a continuation the pump thread has removed and found active. */
  predicate FailureOvertakes(w: World, step: Step, id: nat) {
    && step == FailResumes(id) && id < |w.requests| && w.requests[id].cont.Active?
    && w.thread.FailingOne? && w.thread.id == id
  }

  /** From `before` to `after` a resumed continuation stays resumed and a cancelled one cancelled. */
  predicate SettledOnce(before: Cont, after: Cont) {
    (Collides(before) ==> Collides(after)) && (before.Abandoned? ==> after.Abandoned?)
  }

  lemma CallerSettlesOnce(w: World, step: Step, id: nat)
    requires Enabled(w, step) && CallerStep(step) && id < |w.requests|
    ensures |DoCaller(w, step).requests| == |w.requests|
    ensures SettledOnce(w.requests[id].cont, DoCaller(w, step).requests[id].cont)
  {
    var (r, _) := CallerEffect(w.requests[step.id], step, w.dead || !w.running, step.id in w.registered);
    assert SettledOnce(w.requests[step.id].cont, r.cont);
  }

  lemma ThreadSettlesOnce(w: World, step: Step, id: nat)
    requires Enabled(w, step) && !CallerStep(step) && !step.NewRequest? && id < |w.requests|
    ensures |DoThread(w, step).requests| == |w.requests|
    ensures SettledOnce(w.requests[id].cont, DoThread(w, step).requests[id].cont)
  {
  }

  lemma ContinuationsAreSettledOnce(w: World, step: Step, id: nat)
    requires Enabled(w, step) && id < |w.requests|
    ensures id < |Do(w, step).requests| && SettledOnce(w.requests[id].cont, Do(w, step).requests[id].cont)
  {
    if CallerStep(step) {
      CallerSettlesOnce(w, step, id);
    } else if !step.NewRequest? {
      ThreadSettlesOnce(w, step, id);
    }
  }

  lemma {:induction false} ResumedStays(run: seq<World>, steps: seq<Step>, m: nat, k: nat, id: nat)
    requires IsRun(run, steps) && m <= k < |run| && id < |run[m].requests| && Collides(run[m].requests[id].cont)
    ensures id < |run[k].requests| && Collides(run[k].requests[id].cont)
    decreases k
  {
    if m < k {
      ResumedStays(run, steps, m, k - 1, id);
      assert Linked(run, steps, k - 1);
      ContinuationsAreSettledOnce(run[k - 1], steps[k - 1], id);
    }
  }

  lemma CallerOvertakes(w: World, step: Step, id: nat)
    requires Enabled(w, step) && CallerStep(step) && id < |w.requests| && HeldByThread(w, id) && Owned(w, id)
    requires w.requests[id].cont.Active?
    ensures id < |DoCaller(w, step).requests|
    ensures Collides(DoCaller(w, step).requests[id].cont) ==> step == FailResumes(id)
  {
  }

  /** Under the pump thread's nose, only the failure path resumes. */
  lemma OnlyFailureOvertakes(w: World, step: Step, id: nat)
    requires Inv(w) && Enabled(w, step) && id < |w.requests| && w.thread.FailingOne? && w.thread.id == id
    requires w.requests[id].cont.Active? && step != FailPendingResumes
    ensures id < |Do(w, step).requests|
    ensures Collides(Do(w, step).requests[id].cont) ==> FailureOvertakes(w, step, id)
  {
    assert Owned(w, id);
    if CallerStep(step) {
      CallerOvertakes(w, step, id);
    }
  }

  /** How a thread comes to hold a straggler it is about to fail: it looked at it while it was active. */
  lemma LooksWhileActive(w: World, step: Step, id: nat)
    requires Enabled(w, step) && Do(w, step).thread.FailingOne? && Do(w, step).thread.id == id
    ensures step != FailPendingResumes
    ensures w.thread != Do(w, step).thread ==>
      id < |w.requests| && step == FailPendingLooks && Do(w, step).requests == w.requests && w.requests[id].cont.Active?
  {
  }

  lemma {:induction false} OvertakenBefore(run: seq<World>, steps: seq<Step>, k: nat, id: nat) returns (m: nat)
    requires IsRun(run, steps) && k < |run| && id < |run[k].requests| && Collides(run[k].requests[id].cont)
    requires run[k].thread.FailingOne? && run[k].thread.id == id
    ensures m < k && FailureOvertakes(run[m], steps[m], id)
  {
    assert Linked(run, steps, k - 1);
    var w, step := run[k - 1], steps[k - 1];
    RunsAreSafe(run, steps, k - 1);
    LooksWhileActive(w, step, id);
    ContinuationsAreSettledOnce(w, step, id);
    if Collides(w.requests[id].cont) {
      m := OvertakenBefore(run, steps, k - 1, id);
    } else {
      OnlyFailureOvertakes(w, step, id);
      m := k - 1;
    }
  }

  /** Failing a straggler kills the thread exactly when the failure path of that request overtook it. */
  lemma CrashNeedsOvertaking(run: seq<World>, steps: seq<Step>, j: nat)
    requires IsRun(run, steps) && j < |steps| && steps[j] == FailPendingResumes
    ensures Enabled(run[j], steps[j])
    ensures run[j + 1].thread.Crashed? <==> exists m :: 0 <= m < j && FailureOvertakes(run[m], steps[m], run[j].thread.id)
  {
    assert Linked(run, steps, j);
    var id := run[j].thread.id;
    if Collides(run[j].requests[id].cont) {
      var m := OvertakenBefore(run, steps, j, id);
    }
    if m :| 0 <= m < j && FailureOvertakes(run[m], steps[m], id) {
      assert Linked(run, steps, m);
      ResumedStays(run, steps, m + 1, j, id);
    }
  }

  ghost predicate CrashedAt(run: seq<World>, steps: seq<Step>, j: nat)
    requires |run| == |steps| + 1 && j < |steps|
  {
    && steps[j] == FailPendingResumes && run[j].thread.FailingOne?
    && exists m :: 0 <= m < j && FailureOvertakes(run[m], steps[m], run[j].thread.id)
  }

  lemma CrashIsForever(w: World, step: Step)
    requires Enabled(w, step)
    ensures w.thread.Crashed? ==> Do(w, step).thread == w.thread
    ensures !w.thread.Crashed? && Do(w, step).thread.Crashed? ==> step == FailPendingResumes
  {
  }

  lemma CrashedAtIff(run: seq<World>, steps: seq<Step>, j: nat)
    requires IsRun(run, steps) && j < |steps|
    ensures CrashedAt(run, steps, j) <==> !run[j].thread.Crashed? && run[j + 1].thread.Crashed?
    ensures run[j].thread.Crashed? ==> run[j + 1].thread.Crashed?
  {
    assert Linked(run, steps, j);
    CrashIsForever(run[j], steps[j]);
    if steps[j] == FailPendingResumes {
      CrashNeedsOvertaking(run, steps, j);
    }
  }

  /** Over any run: the pump thread is dead by `k` exactly when some failed start overtook it before. */
  lemma {:induction false} CrashedIff(run: seq<World>, steps: seq<Step>, k: nat)
    requires IsRun(run, steps) && k < |run|
    ensures run[k].thread.Crashed? <==> exists j: nat :: j < k && CrashedAt(run, steps, j)
  {
    if k > 0 {
      CrashedIff(run, steps, k - 1);
      CrashedAtIff(run, steps, k - 1);
      if j: nat :| j < k && CrashedAt(run, steps, j) {
        assert j == k - 1 || run[k - 1].thread.Crashed?;
      }
    }
  }

  /**
   Once the pump thread is gone, an issued request is left active exactly when the thread crashed, the
   request is still registered, and its caller has not been cancelled.
   */
  lemma StrandedIff(run: seq<World>, steps: seq<Step>, k: nat, id: nat)
    requires IsRun(run, steps) && k < |run| && id < |run[k].requests| && run[k].requests[id].phase == Issued
    requires run[k].thread.Ended? || run[k].thread.Crashed?
    ensures run[k].requests[id].cont.Active? <==>
      run[k].thread.Crashed? && id in run[k].registered && !run[k].requests[id].cont.Abandoned?
    ensures run[k].thread.Crashed? && id in run[k].registered ==> id in run[k].thread.list
  {
    RunsAreSafe(run, steps, k);
    assert Owned(run[k], id) && Listed(run[k], id);
  }

  /** The caller was cancelled somewhere from step `k` up to step `j`. */
  predicate CancelledBetween(steps: seq<Step>, k: nat, j: nat, id: nat)
    requires k <= j <= |steps|
    decreases j
  {
    k < j && (steps[j - 1] == CancelCaller(id) || CancelledBetween(steps, k, j - 1, id))
  }

  predicate Stranded(w: World, id: nat) {
    && id < |w.requests| && w.thread.Crashed? && id in w.registered && w.requests[id].phase == Issued
    && (w.requests[id].cont.Active? || w.requests[id].cont.Abandoned?)
  }

  lemma CallerLeavesStranded(w: World, step: Step, id: nat)
    requires Enabled(w, step) && CallerStep(step) && Stranded(w, id)
    ensures Stranded(DoCaller(w, step), id) && DoCaller(w, step).thread == w.thread
    ensures DoCaller(w, step).requests[id].cont == if step == CancelCaller(id) then Abandoned else w.requests[id].cont
  {
  }

  lemma StrandedStep(w: World, step: Step, id: nat)
    requires Enabled(w, step) && Stranded(w, id)
    ensures Stranded(Do(w, step), id) && Do(w, step).thread == w.thread
    ensures Do(w, step).requests[id].cont == if step == CancelCaller(id) then Abandoned else w.requests[id].cont
  {
    if CallerStep(step) { CallerLeavesStranded(w, step, id); }
  }

  /** Nobody answers such a request any more: it stays registered, and active until its caller is cancelled. */
  lemma {:induction false} StrandedForever(run: seq<World>, steps: seq<Step>, k: nat, j: nat, id: nat)
    requires IsRun(run, steps) && k <= j < |run| && run[k].thread.Crashed?
    requires id < |run[k].requests| && run[k].requests[id].phase == Issued && run[k].requests[id].cont.Active?
    ensures Stranded(run[j], id) && run[j].thread == run[k].thread
    ensures run[j].requests[id].cont == if CancelledBetween(steps, k, j, id) then Abandoned else Active
    decreases j
  {
    if k == j {
      StrandedIff(run, steps, k, id);
    } else {
      StrandedForever(run, steps, k, j - 1, id);
      assert Linked(run, steps, j - 1);
      StrandedStep(run[j - 1], steps[j - 1], id);
    }
  }

  // ---------------------------------------------------------------------------------------------
  // What the start-failure path can cost

  /** Request 0 is about to fail to start; request 1 is waiting for its completion. */
  function Scene(first: Request, registered: set<nat>, thread: Thread, dead: bool): World {
    World([first, Request(Active, Issued, false, None, 0)], registered, {1}, [], thread, true, dead)
  }

  function First(cont: Cont, phase: Phase): Request {
    Request(cont, phase, true, None, 0)
  }

  const CRASH_STEPS: seq<Step> :=
    [StopLoop, SetDead, TakeKeys([0, 1]), FailNext, FailPendingLooks, FailRemove(0), FailLooks(0), FailResumes(0), FailPendingResumes]

  const CRASH_RUN: seq<World> :=
    [Scene(First(Active, Failing), {0, 1}, Loop, false),
     Scene(First(Active, Failing), {0, 1}, Stopping, false),
     Scene(First(Active, Failing), {0, 1}, NeedKeys, true),
     Scene(First(Active, Failing), {0, 1}, FailingAll([0, 1]), true),
     Scene(First(Active, Failing), {1}, Removed(0, [1]), true),
     Scene(First(Active, Failing), {1}, FailingOne(0, [1]), true),
     Scene(First(Active, FailCheck), {1}, FailingOne(0, [1]), true),
     Scene(First(Active, FailResume), {1}, FailingOne(0, [1]), true),
     Scene(First(Resumed(Failure), Settled), {1}, FailingOne(0, [1]), true),
     Scene(First(Resumed(Failure), Settled), {1}, Crashed([1]), true)]

  const SETUP_STEPS: seq<Step> :=
    [NewRequest, CheckFlags(0), StartThrows(0), NewRequest, CheckFlags(1), NativeAccepts(1)]

  const SETUP_RUN: seq<World> :=
    [NEW_WORLD,
     NEW_WORLD.(requests := [Request(Active, Inserted, false, None, 0)], registered := {0}),
     NEW_WORLD.(requests := [Request(Active, Starting, false, None, 0)], registered := {0}),
     NEW_WORLD.(requests := [First(Active, Failing)], registered := {0}),
     NEW_WORLD.(requests := [First(Active, Failing), Request(Active, Inserted, false, None, 0)], registered := {0, 1}),
     NEW_WORLD.(requests := [First(Active, Failing), Request(Active, Starting, false, None, 0)], registered := {0, 1}),
     CRASH_RUN[0]]

  lemma SetupIsARun()
    ensures IsRun(SETUP_RUN, SETUP_STEPS)
  {
    forall k: nat | k < 6 ensures Linked(SETUP_RUN, SETUP_STEPS, k) {
      assert k == 0 || k == 1 || k == 2 || k == 3 || k == 4 || k == 5;
    }
  }

  ghost predicate Follows(before: World, step: Step, after: World) {
    Enabled(before, step) && after == Do(before, step)
  }

  lemma CrashBegins()
    ensures forall k :: 0 <= k < 5 ==> Follows(CRASH_RUN[k], CRASH_STEPS[k], CRASH_RUN[k + 1])
  {
    forall k | 0 <= k < 5 ensures Follows(CRASH_RUN[k], CRASH_STEPS[k], CRASH_RUN[k + 1]) {
      assert k == 0 || k == 1 || k == 2 || k == 3 || k == 4;
    }
  }

  lemma CrashEnds()
    ensures forall k :: 5 <= k < 9 ==> Follows(CRASH_RUN[k], CRASH_STEPS[k], CRASH_RUN[k + 1])
  {
    forall k | 5 <= k < 9 ensures Follows(CRASH_RUN[k], CRASH_STEPS[k], CRASH_RUN[k + 1]) {
      assert k == 5 || k == 6 || k == 7 || k == 8;
    }
  }

  lemma RunsJoin(first: seq<World>, fs: seq<Step>, second: seq<World>, ss: seq<Step>)
    requires IsRun(first, fs) && |second| == |ss| + 1 && first[|fs|] == second[0]
    requires forall k :: 0 <= k < |ss| ==> Follows(second[k], ss[k], second[k + 1])
    ensures IsRun(first + second[1..], fs + ss)
  {
    var run, steps := first + second[1..], fs + ss;
    forall k: nat | k < |steps| ensures Linked(run, steps, k) {
      if k < |fs| {
        assert Linked(first, fs, k);
      } else {
        var j := k - |fs|;
        assert Follows(second[j], ss[j], second[j + 1]);
        assert run[k] == second[j] && run[k + 1] == second[j + 1] && steps[k] == ss[j];
      }
    }
  }

  /**
   A `start` that throws while the pump is failing its stragglers: both sides find the continuation
   active, the caller resumes it first, the pump's resume throws out of `failPending`, and request 1
   is left registered, active and unanswered by a thread that is gone.
   */
  lemma ThrownStartCanStrandACaller() returns (run: seq<World>, steps: seq<Step>)
    ensures IsRun(run, steps) && |run| == 16
    ensures run[15].thread.Crashed? && |run[15].requests| == 2
    ensures 1 in run[15].registered && run[15].requests[1].phase == Issued && run[15].requests[1].cont.Active?
  {
    SetupIsARun();
    CrashBegins();
    CrashEnds();
    RunsJoin(SETUP_RUN, SETUP_STEPS, CRASH_RUN, CRASH_STEPS);
    run, steps := SETUP_RUN + CRASH_RUN[1..], SETUP_STEPS + CRASH_STEPS;
    assert run[15] == CRASH_RUN[9];
  }

  // ---------------------------------------------------------------------------------------------
  // The pump's table as the source updates it

  class Continuation {
    var state: Cont

    constructor ()
      ensures state == Active
    {
      state := Active;
    }
  }

  class PumpTable {
    var pending: map<nat, Continuation>
    var nextReqId: nat
    var running: bool
    var dead: bool

    constructor ()
      ensures pending == map[] && nextReqId == 1 && running && !dead
    {
      pending, nextReqId, running, dead := map[], 1, true, false;
    }

    method NextRequestId() returns (id: nat)
      modifies this`nextReqId
      ensures id == old(nextReqId) && nextReqId == id + 1
    {
      id := nextReqId;
      nextReqId := nextReqId + 1;
    }

    /** `request` up to the point where `start` is called: an id is issued only while the pump can answer it. */
    method Issue(continuation: Continuation) returns (id: nat, issue: bool)
      requires continuation.state.Active? || continuation.state.Abandoned?
      modifies this`pending, this`nextReqId, continuation
      ensures id == old(nextReqId) && nextReqId == id + 1
      ensures issue <==> running && !dead
      ensures issue ==> pending == old(pending)[id := continuation] && continuation.state == old(continuation.state)
      ensures !issue ==> pending == old(pending) - {id}
      ensures !issue ==> continuation.state == if old(continuation.state).Active? then Resumed(Failure) else Abandoned
    {
      id := NextRequestId();
      pending := pending[id := continuation];
      if dead || !running {
        pending := pending - {id};
        if continuation.state.Active? {
          continuation.state := Resumed(Failure);
        }
        return id, false;
      }
      issue := true;
    }

    /**
     The matching continuation is removed and resumed; without one, or with a cancelled one, the handle
     is to be freed. Resuming twice throws, which is reported as `threw`.
     */
    method Dispatch(id: nat, handle: bool) returns (free: bool, threw: bool)
      modifies this`pending, if id in pending then {pending[id]} else {}
      ensures pending == old(pending) - {id}
      ensures threw <==> id in old(pending) && Collides(old(pending[id].state))
      ensures id in old(pending) ==>
        old(pending)[id].state == if old(pending[id].state).Active? then Resumed(Value(handle)) else old(pending[id].state)
      ensures free <==> handle && (id !in old(pending) || old(pending[id].state).Abandoned?)
    {
      free, threw := false, false;
      if id !in pending {
        pending := pending - {id};
        return handle, false;
      }
      var continuation := pending[id];
      pending := pending - {id};
      match continuation.state
      case Active => continuation.state := Resumed(Value(handle));
      case Abandoned => free := handle;
      case _ => threw := true;
    }

    /** Every straggler is removed, and each one still active is failed; the others keep their state. */
    method FailPending()
      modifies this`pending, pending.Values
      ensures pending == map[]
      ensures forall id :: id in old(pending) ==>
        old(pending)[id].state == if old(pending[id].state).Active? then Resumed(Failure) else old(pending[id].state)
    {
      ghost var all := pending;
      while pending != map[]
        invariant pending.Keys <= all.Keys && forall id :: id in pending ==> pending[id] == all[id]
        invariant forall id :: id in all ==>
          || all[id].state == (if old(pending[id].state).Active? then Resumed(Failure) else old(pending[id].state))
          || (id in pending && all[id].state == old(pending[id].state))
        invariant forall id :: id in all && id !in pending ==>
          all[id].state == if old(pending[id].state).Active? then Resumed(Failure) else old(pending[id].state)
        decreases pending.Keys
      {
        var id :| id in pending;
        var continuation := pending[id];
        assert continuation in all.Values;
        pending := pending - {id};
        if continuation.state.Active? {
          continuation.state := Resumed(Failure);
        }
      }
    }
  }
}
