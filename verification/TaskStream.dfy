/**
 `TaskStream`: a lock-free queue of tasks and a conflated wakeup channel, read by any number of
 cancellable receivers.

 Every queue or channel operation is one step. The channel is kept to its contract: one buffered
 element at most, direct hand-over to a suspended receiver, a resumed receiver may still be cancelled
 before it runs (losing the element), and closing resumes every suspended receiver.
 */
module TaskStream {
  import opened Bridge
  import Runs

  type Bytes = seq<byte>

  /**
   One call of `receive`. `Took` has polled a task and still has to look at the queue again; `Resend`
   is about to signal, `after` says what follows. `Resumed` has been given an element, the closure or
   a cancellation and is on its way into the `finally` block.
   */
  datatype Phase =
    | Top
    | Took(index: nat)
    | TookResend(index: nat)
    | SawEmpty
    | Parked
    | Resumed(why: Why)
    | Resend(why: Why)
    | LastPoll
    | Returned(index: nat)
    | Threw(why: Why)

  datatype Why = Woken | ChannelClosed | CallerCancelled

  /** A `send` between its closed check and its return. */
  datatype Sender = Checked(task: Bytes) | Added | Sent

  /** `sent` is every task ever added and `taken` how many have been polled: the queue is the rest. */
  datatype World = World(
    sent: seq<Bytes>,
    taken: nat,
    takenBy: seq<nat>,
    buffered: bool,
    channelClosed: bool,
    closed: bool,
    senders: seq<Sender>,
    calls: seq<Phase>)

  datatype Step =
    | SendChecks(task: Bytes)
    | SendAdds(s: nat)
    | SendSignals(s: nat, heir: Option<nat>)
    | MarkClosed
    | CloseChannel
    | Call
    | CancelAtTop(c: nat)
    | Poll(c: nat)
    | Recheck(c: nat)
    | SignalAfterTake(c: nat, heir: Option<nat>)
    | AwaitWakeup(c: nat)
    | CancelWaiting(c: nat)
    | FinallyChecks(c: nat)
    | FinallySignals(c: nat, heir: Option<nat>)
    | PollAfterClose(c: nat)

  predicate At(w: World, c: nat, phase: Phase) {
    c < |w.calls| && w.calls[c] == phase
  }

  predicate SomeoneParked(w: World) {
    exists c :: 0 <= c < |w.calls| && w.calls[c] == Parked
  }

  /** Whom a signal reaches: a parked receiver if there is one, otherwise the buffer. */
  predicate Target(w: World, heir: Option<nat>) {
    if !w.channelClosed && SomeoneParked(w) then heir.Some? && At(w, heir.value, Parked) else heir == None
  }

  predicate QueueEmpty(w: World) {
    w.taken == |w.sent|
  }

  predicate Enabled(w: World, step: Step) {
    match step
    case SendAdds(s) => s < |w.senders| && w.senders[s].Checked?
    case SendSignals(s, t) => s < |w.senders| && w.senders[s].Added? && Target(w, t)
    case CloseChannel => w.closed
    case CancelAtTop(c) => At(w, c, Top)
    case Poll(c) => At(w, c, Top)
    case Recheck(c) => c < |w.calls| && w.calls[c].Took?
    case SignalAfterTake(c, t) => c < |w.calls| && w.calls[c].TookResend? && Target(w, t)
    case AwaitWakeup(c) => At(w, c, SawEmpty)
    case CancelWaiting(c) => c < |w.calls| && (w.calls[c] == Parked || w.calls[c] == Resumed(Woken) || w.calls[c] == Resumed(ChannelClosed))
    case FinallyChecks(c) => c < |w.calls| && w.calls[c].Resumed?
    case FinallySignals(c, t) => c < |w.calls| && w.calls[c].Resend? && Target(w, t)
    case PollAfterClose(c) => At(w, c, LastPoll)
    case _ => true
  }

  function Set(w: World, c: nat, phase: Phase): World
    requires c < |w.calls|
  {
    w.(calls := w.calls[c := phase])
  }

  /** `trySend`: dropped by a closed channel, handed to a parked receiver, or conflated into the buffer. */
  function Signal(w: World, heir: Option<nat>): World {
    if w.channelClosed then w
    else if heir.Some? && heir.value < |w.calls| then Set(w, heir.value, Resumed(Woken))
    else w.(buffered := true)
  }

  /** What `finally` is followed by. */
  function Continue(why: Why): Phase {
    match why
    case Woken => Top
    case ChannelClosed => LastPoll
    case CallerCancelled => Threw(CallerCancelled)
  }

  function TakeOne(w: World, c: nat, phase: Phase): World
    requires c < |w.calls|
  {
    Set(w, c, phase).(taken := w.taken + 1, takenBy := w.takenBy + [c])
  }

  function Unpark(p: Phase): Phase {
    if p == Parked then Resumed(ChannelClosed) else p
  }

  function Do(w: World, step: Step): World
    requires Enabled(w, step)
  {
    match step
    case SendChecks(task) => if w.closed then w else w.(senders := w.senders + [Checked(task)])
    case SendAdds(s) => w.(sent := w.sent + [w.senders[s].task], senders := w.senders[s := Added])
    case SendSignals(s, t) => Signal(w.(senders := w.senders[s := Sent]), t)
    case MarkClosed => w.(closed := true)
    case CloseChannel =>
      w.(channelClosed := true, calls := seq(|w.calls|, c requires 0 <= c < |w.calls| => Unpark(w.calls[c])))
    case Call => w.(calls := w.calls + [Top])
    case CancelAtTop(c) => Set(w, c, Threw(CallerCancelled))
    case Poll(c) => if QueueEmpty(w) then Set(w, c, SawEmpty) else TakeOne(w, c, Took(w.taken))
    case Recheck(c) => Set(w, c, if QueueEmpty(w) then Returned(w.calls[c].index) else TookResend(w.calls[c].index))
    case SignalAfterTake(c, t) => Signal(Set(w, c, Returned(w.calls[c].index)), t)
    case AwaitWakeup(c) =>
      if w.buffered then Set(w, c, Resumed(Woken)).(buffered := false)
      else if w.channelClosed then Set(w, c, Resumed(ChannelClosed))
      else Set(w, c, Parked)
    case CancelWaiting(c) => Set(w, c, Resumed(CallerCancelled))
    case FinallyChecks(c) => Set(w, c, if QueueEmpty(w) then Continue(w.calls[c].why) else Resend(w.calls[c].why))
    case FinallySignals(c, t) => Signal(Set(w, c, Continue(w.calls[c].why)), t)
    case PollAfterClose(c) =>
      if QueueEmpty(w) then Set(w, c, Threw(ChannelClosed)) else TakeOne(w, c, Returned(w.taken))
  }

  const NEW_WORLD: World := World([], 0, [], false, false, false, [], [])

  ghost predicate Linked(run: seq<World>, steps: seq<Step>, k: nat)
    requires k < |steps| && |run| == |steps| + 1
  {
    Enabled(run[k], steps[k]) && run[k + 1] == Do(run[k], steps[k])
  }

  ghost predicate IsRun(run: seq<World>, steps: seq<Step>) {
    |run| == |steps| + 1 && run[0] == NEW_WORLD && forall k: nat :: k < |steps| ==> Linked(run, steps, k)
  }

  // ---------------------------------------------------------------------------------------------
  // Nobody is left waiting while there is a task

  /** Bound to look at the queue, or to signal, before it parks or leaves. */
  predicate Obliged(p: Phase) {
    p.Took? || p.TookResend? || p.Resumed? || p.Resend?
  }

  ghost predicate SomeoneObliged(w: World) {
    || (exists s :: 0 <= s < |w.senders| && w.senders[s].Added?)
    || (exists c :: 0 <= c < |w.calls| && Obliged(w.calls[c]))
  }

  ghost predicate NoStuckReceiver(w: World) {
    !QueueEmpty(w) && !w.channelClosed ==> w.buffered || SomeoneObliged(w)
  }

  ghost predicate ChannelSound(w: World) {
    && (SomeoneParked(w) ==> !w.buffered && !w.channelClosed)
    && (w.channelClosed ==> w.closed)
    && w.taken <= |w.sent|
  }

  /** Each polled task belongs to the one call that polled it, which holds it or has returned it. */
  predicate Carries(p: Phase, i: nat) {
    p == Took(i) || p == TookResend(i) || p == Returned(i)
  }

  ghost predicate NothingLost(w: World) {
    && |w.takenBy| == w.taken
    && (forall i :: 0 <= i < |w.takenBy| ==> w.takenBy[i] < |w.calls| && Carries(w.calls[w.takenBy[i]], i))
    && (forall c: nat, i: nat {:trigger Carries(w.calls[c], i)} :: c < |w.calls| && Carries(w.calls[c], i) ==> i < |w.takenBy| && w.takenBy[i] == c)
  }

  ghost predicate Inv(w: World) {
    NoStuckReceiver(w) && ChannelSound(w) && NothingLost(w)
  }

  lemma StaysObliged(w: World, w': World, c: nat)
    requires c < |w'.calls| && Obliged(w'.calls[c])
    ensures SomeoneObliged(w')
  {
  }

  /** A signal leaves a wakeup behind: buffered, or with the receiver it reached. */
  lemma SignalWakes(w: World, heir: Option<nat>)
    requires Target(w, heir) && !w.channelClosed
    ensures Signal(w, heir).buffered || SomeoneObliged(Signal(w, heir))
  {
    if heir.Some? { assert Obliged(Signal(w, heir).calls[heir.value]); }
  }

  /** Obligations outlast every step that neither discharges one nor finds the queue empty. */
  lemma ObligationsCarryOver(w: World, w': World)
    requires SomeoneObliged(w) && |w.senders| <= |w'.senders| && |w.calls| <= |w'.calls|
    requires forall s :: 0 <= s < |w.senders| && w.senders[s].Added? ==> w'.senders[s].Added?
    requires forall c :: 0 <= c < |w.calls| && Obliged(w.calls[c]) ==> Obliged(w'.calls[c])
    ensures SomeoneObliged(w')
  {
    if s :| 0 <= s < |w.senders| && w.senders[s].Added? {
      assert w'.senders[s].Added?;
    } else {
      var c :| 0 <= c < |w.calls| && Obliged(w.calls[c]);
      assert Obliged(w'.calls[c]);
    }
  }

  lemma SendersKeepReceiversMoving(w: World, step: Step)
    requires Inv(w) && Enabled(w, step)
    requires step.SendChecks? || step.SendAdds? || step.SendSignals? || step.MarkClosed? || step.CloseChannel? || step.Call?
    ensures NoStuckReceiver(Do(w, step))
  {
    var w' := Do(w, step);
    match step
    case SendAdds(s) => assert w'.senders[s].Added?;
    case SendSignals(s, t) => if !w.channelClosed { SignalWakes(w.(senders := w.senders[s := Sent]), t); }
    case CloseChannel =>
    case _ =>
      if SomeoneObliged(w) { ObligationsCarryOver(w, w'); }
  }

  lemma ReceiversKeepReceiversMoving(w: World, step: Step)
    requires Inv(w) && Enabled(w, step)
    requires step.CancelAtTop? || step.Poll? || step.Recheck? || step.AwaitWakeup? || step.CancelWaiting?
          || step.FinallyChecks? || step.PollAfterClose?
    ensures NoStuckReceiver(Do(w, step))
  {
    var w' := Do(w, step);
    if Obliged(w'.calls[step.c]) {
      StaysObliged(w, w', step.c);
    } else if SomeoneObliged(w) && (Obliged(w.calls[step.c]) ==> QueueEmpty(w)) && !QueueEmpty(w) {
      ObligationsCarryOver(w, w');
    }
  }

  /** Moving a receiver that is not parked, and does not park, leaves the parked ones as they were. */
  lemma SameParked(w: World, w': World, c: nat)
    requires c < |w.calls| == |w'.calls| && w.calls[c] != Parked && w'.calls[c] != Parked
    requires forall d :: 0 <= d < |w.calls| && d != c ==> w'.calls[d] == w.calls[d]
    ensures SomeoneParked(w') <==> SomeoneParked(w)
  {
    if d :| 0 <= d < |w.calls| && w.calls[d] == Parked { assert w'.calls[d] == Parked; }
    if d :| 0 <= d < |w'.calls| && w'.calls[d] == Parked { assert w.calls[d] == Parked; }
  }

  lemma SignalsKeepReceiversMoving(w: World, step: Step)
    requires Inv(w) && Enabled(w, step) && (step.SignalAfterTake? || step.FinallySignals?)
    ensures NoStuckReceiver(Do(w, step))
  {
    if !w.channelClosed {
      var phase := if step.SignalAfterTake? then Returned(w.calls[step.c].index) else Continue(w.calls[step.c].why);
      var mid := Set(w, step.c, phase);
      SameParked(w, mid, step.c);
      SignalWakes(mid, step.heir);
    }
  }

  lemma StepKeepsMoving(w: World, step: Step)
    requires Inv(w) && Enabled(w, step)
    ensures NoStuckReceiver(Do(w, step))
  {
    match step
    case SignalAfterTake(_, _) => SignalsKeepReceiversMoving(w, step);
    case FinallySignals(_, _) => SignalsKeepReceiversMoving(w, step);
    case SendChecks(_) => SendersKeepReceiversMoving(w, step);
    case SendAdds(_) => SendersKeepReceiversMoving(w, step);
    case SendSignals(_, _) => SendersKeepReceiversMoving(w, step);
    case MarkClosed => SendersKeepReceiversMoving(w, step);
    case CloseChannel => SendersKeepReceiversMoving(w, step);
    case Call => SendersKeepReceiversMoving(w, step);
    case _ => ReceiversKeepReceiversMoving(w, step);
  }

  /** A signal parks nobody; it buffers only when nobody is parked. */
  lemma SignalKeepsChannel(w: World, heir: Option<nat>)
    requires ChannelSound(w) && Target(w, heir)
    ensures ChannelSound(Signal(w, heir))
  {
    var w' := Signal(w, heir);
    if d :| 0 <= d < |w'.calls| && w'.calls[d] == Parked {
      assert w.calls[d] == Parked;
    }
  }

  lemma SignalStepKeepsChannel(w: World, step: Step)
    requires Inv(w) && Enabled(w, step) && (step.SendSignals? || step.SignalAfterTake? || step.FinallySignals?)
    ensures ChannelSound(Do(w, step))
  {
    if step.SendSignals? {
      SignalKeepsChannel(w.(senders := w.senders[step.s := Sent]), step.heir);
    } else {
      var phase := if step.SignalAfterTake? then Returned(w.calls[step.c].index) else Continue(w.calls[step.c].why);
      SameParked(w, Set(w, step.c, phase), step.c);
      SignalKeepsChannel(Set(w, step.c, phase), step.heir);
    }
  }

  lemma StepKeepsChannel(w: World, step: Step)
    requires Inv(w) && Enabled(w, step)
    ensures ChannelSound(Do(w, step))
  {
    if step.SendSignals? || step.SignalAfterTake? || step.FinallySignals? {
      SignalStepKeepsChannel(w, step);
    } else {
      var w' := Do(w, step);
      if d :| 0 <= d < |w'.calls| && w'.calls[d] == Parked {
        if !step.AwaitWakeup? || d != step.c { assert w.calls[d] == Parked; }
      }
    }
  }

  /** A step that polls nothing and leaves every carried index where it is. */
  lemma CarriedStay(w: World, w': World)
    requires NothingLost(w) && w'.taken == w.taken && w'.takenBy == w.takenBy && |w.calls| <= |w'.calls|
    requires forall c {:trigger w'.calls[c]} :: 0 <= c < |w'.calls| ==>
      forall i: nat :: Carries(w'.calls[c], i) <==> c < |w.calls| && Carries(w.calls[c], i)
    ensures NothingLost(w')
  {
  }

  lemma TakenIsCarried(w: World, c: nat, phase: Phase)
    requires NothingLost(w) && c < |w.calls| && (w.calls[c].Top? || w.calls[c].LastPoll?)
    requires phase == Took(w.taken) || phase == Returned(w.taken)
    ensures NothingLost(TakeOne(w, c, phase))
  {
    var w' := TakeOne(w, c, phase);
    forall d: nat, i: nat | d < |w'.calls| && Carries(w'.calls[d], i) ensures i < |w'.takenBy| && w'.takenBy[i] == d {
      if d != c { assert Carries(w.calls[d], i); }
    }
    forall i | 0 <= i < |w'.takenBy| ensures w'.takenBy[i] < |w'.calls| && Carries(w'.calls[w'.takenBy[i]], i) {
      assert i < w.taken ==> w'.takenBy[i] == w.takenBy[i] != c;
    }
  }

  lemma SignalLosesNothing(w: World, step: Step)
    requires NothingLost(w) && Enabled(w, step) && (step.SendSignals? || step.SignalAfterTake? || step.FinallySignals?)
    ensures NothingLost(Do(w, step))
  {
    CarriedStay(w, Do(w, step));
  }

  lemma MoveLosesNothing(w: World, step: Step)
    requires NothingLost(w) && Enabled(w, step)
    requires step.CancelAtTop? || step.Recheck? || step.AwaitWakeup? || step.CancelWaiting? || step.FinallyChecks?
    ensures NothingLost(Do(w, step))
  {
    CarriedStay(w, Do(w, step));
  }

  lemma StepLosesNothing(w: World, step: Step)
    requires Inv(w) && Enabled(w, step)
    ensures NothingLost(Do(w, step))
  {
    match step
    case Poll(c) => if QueueEmpty(w) { CarriedStay(w, Do(w, step)); } else { TakenIsCarried(w, c, Took(w.taken)); }
    case PollAfterClose(c) => if QueueEmpty(w) { CarriedStay(w, Do(w, step)); } else { TakenIsCarried(w, c, Returned(w.taken)); }
    case SendSignals(_, _) => SignalLosesNothing(w, step);
    case SignalAfterTake(_, _) => SignalLosesNothing(w, step);
    case FinallySignals(_, _) => SignalLosesNothing(w, step);
    case SendChecks(_) => CarriedStay(w, Do(w, step));
    case SendAdds(_) => CarriedStay(w, Do(w, step));
    case MarkClosed => CarriedStay(w, Do(w, step));
    case CloseChannel => CarriedStay(w, Do(w, step));
    case Call => CarriedStay(w, Do(w, step));
    case _ => MoveLosesNothing(w, step);
  }

  lemma StepKeepsInv(w: World, step: Step)
    requires Inv(w) && Enabled(w, step)
    ensures Inv(Do(w, step))
  {
    StepKeepsMoving(w, step);
    StepKeepsChannel(w, step);
    StepLosesNothing(w, step);
  }

  /**
   Over every run: while a task is queued and a receiver is parked, a wakeup is buffered or somebody
   is bound to look again; and each task taken is held or returned by exactly the call that took it.
   */
  lemma {:induction false} RunsAreSafe(run: seq<World>, steps: seq<Step>, k: nat)
    requires IsRun(run, steps) && k < |run|
    ensures NoStuckReceiver(run[k]) && ChannelSound(run[k]) && NothingLost(run[k])
  {
    if k > 0 {
      RunsAreSafe(run, steps, k - 1);
      assert Linked(run, steps, k - 1);
      StepKeepsInv(run[k - 1], steps[k - 1]);
    }
  }

  // ---------------------------------------------------------------------------------------------
  // Order and cancellation

  lemma HistoryGrows(w: World, step: Step)
    requires Enabled(w, step)
    ensures w.sent <= Do(w, step).sent && w.taken <= Do(w, step).taken && w.takenBy <= Do(w, step).takenBy
  {
  }

  lemma {:induction false} HistoryIsKept(run: seq<World>, steps: seq<Step>, j: nat, k: nat)
    requires IsRun(run, steps) && j <= k < |run|
    ensures run[j].sent <= run[k].sent && run[j].taken <= run[k].taken && run[j].takenBy <= run[k].takenBy
    decreases k
  {
    if j < k {
      HistoryIsKept(run, steps, j, k - 1);
      assert Linked(run, steps, k - 1);
      HistoryGrows(run[k - 1], steps[k - 1]);
    }
  }

  lemma TakesAreSingle(w: World, step: Step)
    requires Enabled(w, step) && w.taken <= |w.sent|
    ensures Do(w, step).taken <= w.taken + 1
    ensures Do(w, step).taken == w.taken + 1 ==> Do(w, step).sent == w.sent && w.taken < |w.sent|
  {
  }

  /** Each take yields the task next in send order: the `taken`-th one, and `taken` moves on by one. */
  lemma TakeYieldsTheNext(run: seq<World>, steps: seq<Step>, k: nat, c: nat, i: nat)
    requires IsRun(run, steps) && k < |steps| && c < |run[k + 1].calls| && Carries(run[k + 1].calls[c], i)
    requires c < |run[k].calls| ==> !Carries(run[k].calls[c], i)
    ensures i == run[k].taken < |run[k].sent| && run[k + 1].taken == i + 1 && run[k + 1].sent == run[k].sent
  {
    RunsAreSafe(run, steps, k);
    RunsAreSafe(run, steps, k + 1);
    assert Linked(run, steps, k);
    HistoryGrows(run[k], steps[k]);
    TakesAreSingle(run[k], steps[k]);
  }

  /** Tasks leave in send order: a call that comes away with a task later than another has one sent later. */
  lemma TasksLeaveInOrder(run: seq<World>, steps: seq<Step>, j: nat, k: nat, c: nat, d: nat, a: nat, b: nat)
    requires IsRun(run, steps) && j <= k < |run| && c < |run[j].calls| && d < |run[k].calls|
    requires Carries(run[j].calls[c], a) && Carries(run[k].calls[d], b)
    requires d < |run[j].calls| ==> !Carries(run[j].calls[d], b)
    ensures a < b < |run[k].sent| && run[j].sent <= run[k].sent
  {
    RunsAreSafe(run, steps, j);
    RunsAreSafe(run, steps, k);
    HistoryIsKept(run, steps, j, k);
  }

  /** A call that was cancelled or saw the closure never had a task: cancelling loses none. */
  lemma ThrowingCallsTookNothing(run: seq<World>, steps: seq<Step>, k: nat, c: nat)
    requires IsRun(run, steps) && k < |run| && c < |run[k].calls| && run[k].calls[c].Threw?
    ensures c !in run[k].takenBy
  {
    RunsAreSafe(run, steps, k);
  }

  /** Cancelled, and at most still to pass its wakeup on. */
  predicate Cancelled(p: Phase) {
    p == Resumed(CallerCancelled) || p == Resend(CallerCancelled) || p == Threw(CallerCancelled)
  }

  lemma SignalsSpareTheCancelled(w: World, step: Step, c: nat)
    requires Enabled(w, step) && (step.SendSignals? || step.SignalAfterTake? || step.FinallySignals?)
    requires c < |w.calls| && Cancelled(w.calls[c])
    ensures c < |Do(w, step).calls| && Cancelled(Do(w, step).calls[c])
  {
  }

  lemma CancelledStays(w: World, step: Step, c: nat)
    requires Enabled(w, step) && c < |w.calls| && Cancelled(w.calls[c])
    ensures c < |Do(w, step).calls| && Cancelled(Do(w, step).calls[c])
  {
    if step.SendSignals? || step.SignalAfterTake? || step.FinallySignals? { SignalsSpareTheCancelled(w, step, c); }
  }

  /** From its cancellation on a call only ever passes its wakeup on and throws: it parks no more and takes no task. */
  lemma {:induction false} CancelledCallEnds(run: seq<World>, steps: seq<Step>, j: nat, k: nat, c: nat)
    requires IsRun(run, steps) && j < k < |run| && (steps[j] == CancelWaiting(c) || steps[j] == CancelAtTop(c))
    ensures c < |run[k].calls| && Cancelled(run[k].calls[c]) && c !in run[k].takenBy
    decreases k
  {
    assert Linked(run, steps, k - 1);
    if j < k - 1 {
      CancelledCallEnds(run, steps, j, k - 1, c);
      CancelledStays(run[k - 1], steps[k - 1], c);
    }
    RunsAreSafe(run, steps, k);
  }

  lemma ClosedStepOnlyDrains(w: World, step: Step)
    requires Enabled(w, step) && w.channelClosed
    ensures Do(w, step).channelClosed && (Do(w, step).buffered ==> w.buffered)
  {
  }

  /** A closed channel parks nobody and takes no new wakeup: at most the one already buffered is still received. */
  lemma {:induction false} ClosedChannelOnlyDrains(run: seq<World>, steps: seq<Step>, j: nat, k: nat)
    requires IsRun(run, steps) && j <= k < |run| && run[j].channelClosed
    ensures run[k].channelClosed && !SomeoneParked(run[k]) && (run[k].buffered ==> run[j].buffered)
    decreases k
  {
    RunsAreSafe(run, steps, k);
    if j < k {
      ClosedChannelOnlyDrains(run, steps, j, k - 1);
      assert Linked(run, steps, k - 1);
      ClosedStepOnlyDrains(run[k - 1], steps[k - 1]);
    }
  }

  // ---------------------------------------------------------------------------------------------
  // A receive gets somewhere

  /** The most steps a call still takes by itself before it ends, parks or comes round again. */
  function OwnLeft(p: Phase): nat {
    match p
    case Top => 5
    case SawEmpty => 4
    case Parked | Resumed(Woken) | Resumed(ChannelClosed) => 3
    case Took(_) | Resumed(CallerCancelled) | Resend(Woken) | Resend(ChannelClosed) => 2
    case TookResend(_) | Resend(CallerCancelled) | LastPoll => 1
    case Returned(_) | Threw(_) => 0
  }

  predicate OwnStep(step: Step, c: nat) {
    match step
    case CancelAtTop(d) => d == c
    case Poll(d) => d == c
    case Recheck(d) => d == c
    case SignalAfterTake(d, _) => d == c
    case AwaitWakeup(d) => d == c
    case CancelWaiting(d) => d == c
    case FinallyChecks(d) => d == c
    case FinallySignals(d, _) => d == c
    case PollAfterClose(d) => d == c
    case _ => false
  }

  /** A wakeup took the call back to the top of its loop. */
  predicate ComesRound(before: World, after: World, c: nat) {
    && c < |before.calls| && c < |after.calls| && after.calls[c] == Top
    && (before.calls[c] == Resumed(Woken) || before.calls[c] == Resend(Woken))
  }

  lemma OwnStepMovesOn(w: World, step: Step, c: nat)
    requires Enabled(w, step) && OwnStep(step, c)
    ensures c < |w.calls| && c < |Do(w, step).calls|
    ensures ComesRound(w, Do(w, step), c) || OwnLeft(Do(w, step).calls[c]) < OwnLeft(w.calls[c])
  {
  }

  lemma OthersOnlyWake(w: World, step: Step, c: nat)
    requires Enabled(w, step) && !OwnStep(step, c) && c < |w.calls|
    ensures c < |Do(w, step).calls|
    ensures Do(w, step).calls[c] == w.calls[c] || (w.calls[c] == Parked && Do(w, step).calls[c].Resumed?)
  {
  }

  lemma OthersNeverSetItBack(w: World, step: Step, c: nat)
    requires Enabled(w, step) && !OwnStep(step, c) && c < |w.calls|
    ensures c < |Do(w, step).calls| && OwnLeft(Do(w, step).calls[c]) <= OwnLeft(w.calls[c])
  {
    OthersOnlyWake(w, step, c);
  }

  ghost function OwnSteps(steps: seq<Step>, c: nat): nat {
    if steps == [] then 0 else OwnSteps(steps[..|steps| - 1], c) + if OwnStep(steps[|steps| - 1], c) then 1 else 0
  }

  ghost function Rounds(run: seq<World>, k: nat, c: nat): nat
    requires k < |run|
  {
    if k == 0 then 0 else Rounds(run, k - 1, c) + if ComesRound(run[k - 1], run[k], c) then 1 else 0
  }

  /** No call spins: it takes at most five steps of its own for each time it was woken, and five more. */
  lemma {:induction false} OwnStepsAreBounded(run: seq<World>, steps: seq<Step>, k: nat, c: nat)
    requires IsRun(run, steps) && k < |run|
    ensures OwnSteps(steps[..k], c) + (if c < |run[k].calls| then OwnLeft(run[k].calls[c]) else 5) <= 5 * (1 + Rounds(run, k, c))
  {
    if k > 0 {
      OwnStepsAreBounded(run, steps, k - 1, c);
      assert Linked(run, steps, k - 1);
      assert steps[..k][..k - 1] == steps[..k - 1];
      if OwnStep(steps[k - 1], c) {
        OwnStepMovesOn(run[k - 1], steps[k - 1], c);
      } else if c < |run[k - 1].calls| {
        OthersNeverSetItBack(run[k - 1], steps[k - 1], c);
      }
    }
  }

  /** A call that has not ended and is not parked can always go on. */
  lemma CallCanGoOn(w: World, c: nat) returns (step: Step)
    requires c < |w.calls| && !w.calls[c].Parked? && !w.calls[c].Returned? && !w.calls[c].Threw?
    ensures Enabled(w, step) && OwnStep(step, c)
  {
    var heir := None;
    if !w.channelClosed && SomeoneParked(w) {
      var d: nat :| d < |w.calls| && w.calls[d] == Parked;
      heir := Some(d);
    }
    step := match w.calls[c]
            case Top => Poll(c)
            case Took(_) => Recheck(c)
            case TookResend(_) => SignalAfterTake(c, heir)
            case SawEmpty => AwaitWakeup(c)
            case Resumed(_) => FinallyChecks(c)
            case Resend(_) => FinallySignals(c, heir)
            case _ => PollAfterClose(c);
  }

  lemma PassingOnBegins(w: World, step: Step, c: nat)
    requires Enabled(w, step) && c < |Do(w, step).calls| && (Do(w, step).calls[c].TookResend? || Do(w, step).calls[c].Resend?)
    ensures || (c < |w.calls| && w.calls[c] == Do(w, step).calls[c])
            || ((step == Recheck(c) || step == FinallyChecks(c)) && !QueueEmpty(w))
  {
    if !OwnStep(step, c) && c < |w.calls| { OthersOnlyWake(w, step, c); }
  }

  /** A wakeup is passed on only by a call that has just seen a task it leaves behind. */
  lemma {:induction false} PassedOnForATask(run: seq<World>, steps: seq<Step>, k: nat, c: nat) returns (j: nat)
    requires IsRun(run, steps) && k < |run| && c < |run[k].calls| && (run[k].calls[c].TookResend? || run[k].calls[c].Resend?)
    ensures j < k && (steps[j] == Recheck(c) || steps[j] == FinallyChecks(c)) && !QueueEmpty(run[j])
    ensures forall m :: j < m <= k ==> c < |run[m].calls| && run[m].calls[c] == run[k].calls[c]
  {
    assert Linked(run, steps, k - 1);
    PassingOnBegins(run[k - 1], steps[k - 1], c);
    if c < |run[k - 1].calls| && run[k - 1].calls[c] == run[k].calls[c] {
      j := PassedOnForATask(run, steps, k - 1, c);
    } else {
      j := k - 1;
    }
  }

  // ---------------------------------------------------------------------------------------------
  // Closure

  /** Nothing is between its closed check and its add. */
  ghost predicate NoSendPending(w: World) {
    forall s :: 0 <= s < |w.senders| ==> !w.senders[s].Checked?
  }

  /** `close` runs on the thread that sends: no send is half way through when the stream is marked closed. */
  ghost predicate ClosedBySender(run: seq<World>, steps: seq<Step>)
    requires |run| == |steps| + 1
  {
    forall k :: 0 <= k < |steps| && steps[k] == MarkClosed ==> NoSendPending(run[k])
  }

  ghost predicate ReportedEmpty(w: World) {
    forall c :: 0 <= c < |w.calls| && w.calls[c] == Threw(ChannelClosed) ==> QueueEmpty(w)
  }

  predicate KnowsClosure(p: Phase) {
    p == Resumed(ChannelClosed) || p == Resend(ChannelClosed) || p == LastPoll || p == Threw(ChannelClosed)
  }

  /** Closure reached a receiver only through a closed channel. */
  ghost predicate ClosureIsReal(w: World) {
    forall c :: 0 <= c < |w.calls| && KnowsClosure(w.calls[c]) ==> w.channelClosed
  }

  lemma SignalTellsNoClosure(w: World, heir: Option<nat>, c: nat)
    requires c < |w.calls| && KnowsClosure(Signal(w, heir).calls[c])
    ensures KnowsClosure(w.calls[c]) && Signal(w, heir).channelClosed == w.channelClosed
  {
  }

  /** The steps that end in a signal: what they signal from is a world where one phase has moved on. */
  lemma SignalStepKeepsClosure(w: World, step: Step, c: nat)
    requires ClosureIsReal(w) && Enabled(w, step) && (step.SendSignals? || step.SignalAfterTake? || step.FinallySignals?)
    requires c < |Do(w, step).calls| && KnowsClosure(Do(w, step).calls[c])
    ensures Do(w, step).channelClosed
  {
    match step
    case SendSignals(s, t) => SignalTellsNoClosure(w.(senders := w.senders[s := Sent]), t, c);
    case SignalAfterTake(d, t) => SignalTellsNoClosure(Set(w, d, Returned(w.calls[d].index)), t, c);
    case FinallySignals(d, t) =>
      assert KnowsClosure(w.calls[d]) ==> w.channelClosed;
      SignalTellsNoClosure(Set(w, d, Continue(w.calls[d].why)), t, c);
  }

  lemma StepKeepsClosure(w: World, step: Step, c: nat)
    requires ClosureIsReal(w) && Enabled(w, step) && c < |Do(w, step).calls| && KnowsClosure(Do(w, step).calls[c])
    ensures Do(w, step).channelClosed
  {
    if step.SendSignals? || step.SignalAfterTake? || step.FinallySignals? {
      SignalStepKeepsClosure(w, step, c);
    } else {
      assert c < |w.calls| && KnowsClosure(w.calls[c]) ==> w.channelClosed;
    }
  }

  lemma ReceiverKeepsReported(w: World, step: Step)
    requires Inv(w) && ReportedEmpty(w) && Enabled(w, step)
    requires !step.SendChecks? && !step.SendAdds? && !step.SendSignals? && !step.MarkClosed? && !step.CloseChannel? && !step.Call?
    ensures ReportedEmpty(Do(w, step)) && Do(w, step).senders == w.senders && Do(w, step).closed == w.closed
  {
    var w' := Do(w, step);
    forall c | 0 <= c < |w'.calls| && w'.calls[c] == Threw(ChannelClosed) ensures QueueEmpty(w') {
      assert w.calls[c] == Threw(ChannelClosed) || (step.PollAfterClose? && QueueEmpty(w));
    }
  }

  lemma StepKeepsReported(w: World, step: Step)
    requires Inv(w) && ReportedEmpty(w) && Enabled(w, step) && (!w.closed ==> ClosureIsReal(w))
    requires w.closed ==> NoSendPending(w)
    requires step == MarkClosed ==> NoSendPending(w)
    ensures ReportedEmpty(Do(w, step))
    ensures Do(w, step).closed ==> NoSendPending(Do(w, step))
  {
    match step
    case SendAdds(s) => assert w.senders[s].Checked?;
    case SendChecks(_) =>
    case SendSignals(_, _) =>
    case MarkClosed =>
    case CloseChannel =>
    case Call =>
    case _ => ReceiverKeepsReported(w, step);
  }

  /** With sends and close on one thread, closure is reported only after every task has been taken. */
  lemma {:induction false} ClosureComesLast(run: seq<World>, steps: seq<Step>, k: nat)
    requires IsRun(run, steps) && ClosedBySender(run, steps) && k < |run|
    ensures ClosureIsReal(run[k]) && ReportedEmpty(run[k])
    ensures run[k].closed ==> NoSendPending(run[k])
  {
    if k > 0 {
      ClosureComesLast(run, steps, k - 1);
      RunsAreSafe(run, steps, k - 1);
      assert Linked(run, steps, k - 1);
      forall c: nat | c < |run[k].calls| && KnowsClosure(run[k].calls[c]) ensures run[k].channelClosed {
        StepKeepsClosure(run[k - 1], steps[k - 1], c);
      }
      StepKeepsReported(run[k - 1], steps[k - 1]);
    }
  }

  ghost predicate Reported(w: World) {
    exists c :: 0 <= c < |w.calls| && w.calls[c] == Threw(ChannelClosed)
  }

  /** Any step but an add behind a reported closure keeps the promise; that one breaks it. */
  lemma StepKeepsPromiseIff(w: World, step: Step)
    requires Inv(w) && ReportedEmpty(w) && Enabled(w, step)
    ensures ReportedEmpty(Do(w, step)) <==> !(step.SendAdds? && Reported(w))
  {
    match step
    case SendAdds(_) =>
      assert Do(w, step).calls == w.calls && !QueueEmpty(Do(w, step));
    case SendChecks(_) =>
    case SendSignals(_, _) =>
    case MarkClosed =>
    case CloseChannel =>
    case Call =>
    case _ => ReceiverKeepsReported(w, step);
  }

  lemma {:induction false} PromiseKeptSoFar(run: seq<World>, steps: seq<Step>, k: nat)
    requires IsRun(run, steps) && k < |run|
    requires forall j :: 0 <= j < |steps| && steps[j].SendAdds? ==> !Reported(run[j])
    ensures ReportedEmpty(run[k])
  {
    if k > 0 {
      PromiseKeptSoFar(run, steps, k - 1);
      RunsAreSafe(run, steps, k - 1);
      assert Linked(run, steps, k - 1);
      StepKeepsPromiseIff(run[k - 1], steps[k - 1]);
    }
  }

  /** A run keeps the promise throughout exactly when no send adds its task after closure has been reported. */
  lemma ClosureComesLastIff(run: seq<World>, steps: seq<Step>)
    requires IsRun(run, steps)
    ensures (forall k :: 0 <= k < |run| ==> ReportedEmpty(run[k]))
       <==> forall j :: 0 <= j < |steps| && steps[j].SendAdds? ==> !Reported(run[j])
  {
    if forall j :: 0 <= j < |steps| && steps[j].SendAdds? ==> !Reported(run[j]) {
      forall k | 0 <= k < |run| ensures ReportedEmpty(run[k]) {
        PromiseKeptSoFar(run, steps, k);
      }
    } else {
      var j :| 0 <= j < |steps| && steps[j].SendAdds? && Reported(run[j]);
      RunsAreSafe(run, steps, j);
      assert Linked(run, steps, j);
      if ReportedEmpty(run[j]) { StepKeepsPromiseIff(run[j], steps[j]); }
      assert !ReportedEmpty(run[j]) || !ReportedEmpty(run[j + 1]);
    }
  }

  // ---------------------------------------------------------------------------------------------
  // What a closer can check before it closes

  ghost predicate Moves(before: World, after: World) {
    exists step :: Enabled(before, step) && after == Do(before, step)
  }

  ghost predicate Reaches(w: World, later: World) {
    Runs.Reaches(Moves, w, later)
  }

  lemma ReachesNext(w: World, later: World, step: Step)
    requires Reaches(w, later) && Enabled(later, step)
    ensures Reaches(w, Do(later, step))
  {
    assert Moves(later, Do(later, step));
    Runs.ReachesNext(Moves, w, later, Do(later, step));
  }

  lemma ClosedStays(w: World, step: Step)
    requires Enabled(w, step) && w.closed
    ensures Do(w, step).closed
  {
  }

  ghost predicate SafelyClosed(w: World) {
    Inv(w) && ReportedEmpty(w) && w.closed && NoSendPending(w)
  }

  lemma MovesKeepSafelyClosed(before: World, after: World)
    requires SafelyClosed(before) && Moves(before, after)
    ensures SafelyClosed(after)
  {
    var step :| Enabled(before, step) && after == Do(before, step);
    StepKeepsInv(before, step);
    StepKeepsReported(before, step);
    ClosedStays(before, step);
  }

  /** A new call takes the next task. */
  lemma TakesOne(w: World, later: World) returns (end: World)
    requires Reaches(w, later) && later.taken < |later.sent|
    ensures Reaches(w, end) && end == later.(calls := end.calls, taken := later.taken + 1, takenBy := end.takenBy)
  {
    var c := |later.calls|;
    ReachesNext(w, later, Call);
    ReachesNext(w, Do(later, Call), Poll(c));
    end := Do(Do(later, Call), Poll(c));
  }

  lemma {:induction false} Drains(w: World, later: World) returns (end: World)
    requires Reaches(w, later) && later.taken <= |later.sent|
    ensures Reaches(w, end) && QueueEmpty(end)
    ensures end == later.(calls := end.calls, taken := end.taken, takenBy := end.takenBy)
    decreases |later.sent| - later.taken
  {
    end := later;
    if !QueueEmpty(later) {
      var next := TakesOne(w, later);
      end := Drains(w, next);
    }
  }

  /** A receiver that finds the queue empty, the channel closed and no wakeup reports closure. */
  lemma ReportsClosure(w: World, later: World, c: nat) returns (end: World)
    requires Reaches(w, later) && At(later, c, SawEmpty) && QueueEmpty(later) && later.channelClosed && !later.buffered
    ensures Reaches(w, end) && Reported(end) && QueueEmpty(end) && end.senders == later.senders
  {
    ReachesNext(w, later, AwaitWakeup(c));
    var told := Set(later, c, Resumed(ChannelClosed));
    ReachesNext(w, told, FinallyChecks(c));
    var last := Set(told, c, LastPoll);
    ReachesNext(w, last, PollAfterClose(c));
    end := Set(last, c, Threw(ChannelClosed));
    assert end.calls[c] == Threw(ChannelClosed);
  }

  /** A new receiver goes through the leftover wakeup, if there is one, and then reports closure. */
  lemma NewcomerReportsClosure(w: World, later: World) returns (end: World)
    requires Reaches(w, later) && QueueEmpty(later) && later.channelClosed
    ensures Reaches(w, end) && Reported(end) && QueueEmpty(end) && end.senders == later.senders
  {
    var c := |later.calls|;
    ReachesNext(w, later, Call);
    var called := Do(later, Call);
    ReachesNext(w, called, Poll(c));
    var empty := Set(called, c, SawEmpty);
    if empty.buffered {
      ReachesNext(w, empty, AwaitWakeup(c));
      var woken := Set(empty, c, Resumed(Woken)).(buffered := false);
      ReachesNext(w, woken, FinallyChecks(c));
      var top := Set(woken, c, Top);
      ReachesNext(w, top, Poll(c));
      empty := Set(top, c, SawEmpty);
    }
    end := ReportsClosure(w, empty, c);
  }

  /** A send that is past its closed check adds its task behind the reported closure. */
  lemma PendingSendBreaksPromise(w: World, s: nat) returns (end: World)
    requires w.taken <= |w.sent| && s < |w.senders| && w.senders[s].Checked? && w.closed
    ensures Reaches(w, end) && !ReportedEmpty(end)
  {
    Runs.ReachesItself(Moves, w);
    ReachesNext(w, w, CloseChannel);
    var drained := Drains(w, Do(w, CloseChannel));
    var reported := NewcomerReportsClosure(w, drained);
    ReachesNext(w, reported, SendAdds(s));
    end := Do(reported, SendAdds(s));
    var c :| 0 <= c < |reported.calls| && reported.calls[c] == Threw(ChannelClosed);
    assert end.calls[c] == Threw(ChannelClosed) && !QueueEmpty(end);
  }

  /**
   From any reachable world: every continuation of a close keeps the promise exactly when the promise
   holds now and no send is between its closed check and its add.
   */
  lemma CloseIsSafeIff(run: seq<World>, steps: seq<Step>, k: nat)
    requires IsRun(run, steps) && k < |run|
    ensures (forall later :: Reaches(Do(run[k], MarkClosed), later) ==> ReportedEmpty(later))
       <==> ReportedEmpty(run[k]) && NoSendPending(run[k])
  {
    RunsAreSafe(run, steps, k);
    var w := run[k];
    var closing := Do(w, MarkClosed);
    StepKeepsInv(w, MarkClosed);
    if !ReportedEmpty(w) {
      Runs.ReachesItself(Moves, closing);
      assert Reaches(closing, closing) && !ReportedEmpty(closing);
    } else if !NoSendPending(w) {
      var s :| 0 <= s < |w.senders| && w.senders[s].Checked?;
      var end := PendingSendBreaksPromise(closing, s);
    } else {
      forall before, after | SafelyClosed(before) && Moves(before, after) ensures SafelyClosed(after) {
        MovesKeepSafelyClosed(before, after);
      }
      forall later | Reaches(closing, later) ensures ReportedEmpty(later) {
        Runs.KeptForever(Moves, SafelyClosed, closing, later);
      }
    }
  }

  /** A close from another thread does reach that point: run[8] has reported closure, run[9] has a task behind it. */
  lemma OtherThreadCloseStrandsTask(task: Bytes) returns (run: seq<World>, steps: seq<Step>)
    ensures IsRun(run, steps) && |run| == 10
    ensures run[9].calls == [Threw(ChannelClosed)] && run[9].sent == [task] && run[9].taken == 0
  {
    var w1 := NEW_WORLD.(senders := [Checked(task)]);
    var w2 := w1.(closed := true);
    var w3 := w2.(channelClosed := true);
    var w8 := w3.(calls := [Threw(ChannelClosed)]);
    steps := [SendChecks(task), MarkClosed, CloseChannel, Call, Poll(0), AwaitWakeup(0), FinallyChecks(0), PollAfterClose(0), SendAdds(0)];
    run := [NEW_WORLD, w1, w2, w3, w3.(calls := [Top]), w3.(calls := [SawEmpty]),
            w3.(calls := [Resumed(ChannelClosed)]), w3.(calls := [LastPoll]), w8, w8.(sent := [task], senders := [Added])];
    assert Do(w2, CloseChannel) == w3;
    forall k: nat | k < 9 ensures Linked(run, steps, k) {
      assert k == 0 || k == 1 || k == 2 || k == 3 || k == 4 || k == 5 || k == 6 || k == 7 || k == 8;
    }
  }

  // ---------------------------------------------------------------------------------------------
  // The stream as the source updates it, between suspensions

  datatype Received = Task(task: Bytes) | Suspended | Closed

  class Stream {
    var tasks: seq<Bytes>
    var ready: bool
    var channelClosed: bool
    var closed: bool

    constructor ()
      ensures tasks == [] && !ready && !channelClosed && !closed
    {
      tasks, ready, channelClosed, closed := [], false, false, false;
    }

    method TrySend()
      modifies this`ready
      ensures ready == (old(ready) || !channelClosed)
    {
      if !channelClosed {
        ready := true;
      }
    }

    method Send(task: Bytes)
      modifies this`tasks, this`ready
      ensures tasks == if closed then old(tasks) else old(tasks) + [task]
      ensures ready == (old(ready) || (!closed && !channelClosed))
    {
      if closed {
        return;
      }
      tasks := tasks + [task];
      TrySend();
    }

    method Close()
      modifies this`closed, this`channelClosed
      ensures closed && channelClosed
    {
      closed := true;
      channelClosed := true;
    }

    /**
     `receive` as far as it runs without suspending: the oldest task if there is one, the closure only
     when there is none, and otherwise a suspension with no wakeup left behind.
     */
    method Receive() returns (r: Received)
      modifies this`tasks, this`ready
      ensures old(tasks) != [] ==>
        && r == Task(old(tasks)[0]) && tasks == old(tasks)[1..]
        && ready == (old(ready) || (tasks != [] && !channelClosed))
      ensures old(tasks) == [] ==>
        && tasks == [] && !ready
        && r == if channelClosed then Closed else Suspended
    {
      while true
        invariant tasks == old(tasks) && (ready == old(ready) || tasks == [])
        decreases ready
      {
        if tasks != [] {
          r := Task(tasks[0]);
          tasks := tasks[1..];
          if tasks != [] {
            TrySend();
          }
          return;
        }
        if ready {
          ready := false;
        } else if channelClosed {
          return Closed;
        } else {
          return Suspended;
        }
      }
    }
  }
}
