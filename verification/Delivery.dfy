/**
 From the queue to the receivers of one task stream: the pump thread handles the queue's events one after
 the other, queue operation by queue operation, while any number of receivers take, wait and are
 cancelled in between.
 */
module Delivery {
  import opened Bridge
  import Runs
  import S = Streams
  import T = TaskStream

  /** Where the pump thread is inside `onEvent`: past a send's closed check, past its add, or between the two halves of a close. */
  datatype Stage = Idle | Adding(s: nat) | Signalling(s: nat) | Closing

  /**
   `done` events have been handled. `failure` is the stream's entry of `streamFailures`, and `cause` what
   the wakeup channel was closed with, which is what every receiver that finds it closed is told.
   */
  datatype World = World(
    ts: T.World, done: nat, stage: Stage, failure: Option<S.StreamFailure>, cause: Option<Option<S.StreamFailure>>)

  datatype Step =
    | Skip
    | RecordFailure
    | BeginTask
    | AddTask
    | SignalTask(heir: Option<nat>)
    | BeginClose
    | EndClose
    | Receive(step: T.Step)

  const NEW_WORLD: World := World(T.NEW_WORLD, 0, Idle, None, None)

  predicate ReceiverStep(step: T.Step) {
    && !step.SendChecks? && !step.SendAdds? && !step.SendSignals? && !step.MarkClosed? && !step.CloseChannel?
  }

  /** The next event is for this stream. */
  predicate Next(w: World, events: seq<Pending>, key: S.Key) {
    w.done < |events| && S.StreamOf(events[w.done]) == Some(key)
  }

  predicate Enabled(w: World, events: seq<Pending>, key: S.Key, step: Step) {
    match step
    case Skip => w.stage.Idle? && w.done < |events| && !Next(w, events, key)
    case RecordFailure => w.stage.Idle? && Next(w, events, key) && events[w.done].kind == WorkerFailed
    case BeginTask => w.stage.Idle? && Next(w, events, key) && S.IsTask(events[w.done])
    case AddTask => w.stage.Adding? && T.Enabled(w.ts, T.SendAdds(w.stage.s))
    case SignalTask(heir) => w.stage.Signalling? && T.Enabled(w.ts, T.SendSignals(w.stage.s, heir))
    case BeginClose => w.stage.Idle? && Next(w, events, key) && events[w.done].kind == TaskStreamEnd
    case EndClose => w.stage.Closing? && T.Enabled(w.ts, T.CloseChannel)
    case Receive(s) => ReceiverStep(s) && T.Enabled(w.ts, s)
  }

  function Do(w: World, events: seq<Pending>, key: S.Key, step: Step): World
    requires Enabled(w, events, key, step)
  {
    match step
    case Skip => w.(done := w.done + 1)
    case RecordFailure =>
      var p := events[w.done];
      w.(failure := Some(S.StreamFailure(p.status, p.payload)), done := w.done + 1)
    case BeginTask =>
      var checked := T.Do(w.ts, T.SendChecks(events[w.done].payload));
      if w.ts.closed then w.(ts := checked, done := w.done + 1)
      else w.(ts := checked, stage := Adding(|w.ts.senders|))
    case AddTask => w.(ts := T.Do(w.ts, T.SendAdds(w.stage.s)), stage := Signalling(w.stage.s))
    case SignalTask(heir) => w.(ts := T.Do(w.ts, T.SendSignals(w.stage.s, heir)), stage := Idle, done := w.done + 1)
    case BeginClose => w.(ts := T.Do(w.ts, T.MarkClosed), stage := Closing)
    case EndClose =>
      w.(ts := T.Do(w.ts, T.CloseChannel), stage := Idle, done := w.done + 1,
         cause := if w.cause.None? then Some(w.failure) else w.cause)
    case Receive(s) => w.(ts := T.Do(w.ts, s))
  }

  ghost predicate Linked(run: seq<World>, steps: seq<Step>, events: seq<Pending>, key: S.Key, k: nat)
    requires k < |steps| && |run| == |steps| + 1
  {
    Enabled(run[k], events, key, steps[k]) && run[k + 1] == Do(run[k], events, key, steps[k])
  }

  ghost predicate IsRun(run: seq<World>, steps: seq<Step>, events: seq<Pending>, key: S.Key) {
    && |run| == |steps| + 1 && run[0] == NEW_WORLD
    && forall k: nat :: k < |steps| ==> Linked(run, steps, events, key, k)
  }

  // ---------------------------------------------------------------------------------------------
  // The stream side

  ghost predicate StreamSound(ts: T.World) {
    && T.Inv(ts) && T.ReportedEmpty(ts) && T.ClosureIsReal(ts)
    && (ts.closed ==> T.NoSendPending(ts))
  }

  lemma StreamStepIsSound(ts: T.World, step: T.Step)
    requires StreamSound(ts) && T.Enabled(ts, step) && (step == T.MarkClosed ==> T.NoSendPending(ts))
    ensures StreamSound(T.Do(ts, step))
  {
    T.StepKeepsInv(ts, step);
    T.StepKeepsReported(ts, step);
    var after := T.Do(ts, step);
    forall c: nat | c < |after.calls| && T.KnowsClosure(after.calls[c]) ensures after.channelClosed {
      T.StepKeepsClosure(ts, step, c);
    }
  }

  /** Receivers touch neither what has been sent nor who is sending, nor whether the stream is closed. */
  lemma ReceiversOnlyTake(ts: T.World, step: T.Step)
    requires T.Enabled(ts, step) && ReceiverStep(step)
    ensures var after := T.Do(ts, step);
            && after.sent == ts.sent && after.senders == ts.senders
            && after.closed == ts.closed && after.channelClosed == ts.channelClosed
  {
  }

  lemma AddingOnlyAppends(ts: T.World, s: nat)
    requires T.Enabled(ts, T.SendAdds(s))
    ensures var after := T.Do(ts, T.SendAdds(s));
            && after.sent == ts.sent + [ts.senders[s].task] && after.senders == ts.senders[s := T.Added]
            && after.closed == ts.closed && after.channelClosed == ts.channelClosed
  {
  }

  lemma SignallingOnlyWakes(ts: T.World, s: nat, heir: Option<nat>)
    requires T.Enabled(ts, T.SendSignals(s, heir))
    ensures var after := T.Do(ts, T.SendSignals(s, heir));
            && after.sent == ts.sent && after.senders == ts.senders[s := T.Sent]
            && after.closed == ts.closed && after.channelClosed == ts.channelClosed
  {
  }

  // ---------------------------------------------------------------------------------------------
  // The handler side

  /** The stream's events among the first `done`, replayed. */
  function Handled(events: seq<Pending>, key: S.Key, done: nat): S.Consumer
    requires done <= |events|
  {
    S.Replay(S.NEW_CONSUMER, S.Only(events[..done], key))
  }

  lemma HandlesOneMore(events: seq<Pending>, key: S.Key, done: nat)
    requires done < |events|
    ensures var c := Handled(events, key, done);
            Handled(events, key, done + 1) == if S.StreamOf(events[done]) == Some(key) then S.Apply(c, events[done]) else c
  {
    assert events[..done + 1] == events[..done] + [events[done]];
    S.OnlyGrows(events[..done], events[done], key);
    S.ReplayGrows(S.NEW_CONSUMER, S.Only(events[..done], key), events[done]);
  }

  /** Nobody but sender `s` is between its closed check and its add. */
  ghost predicate OnlyPending(ts: T.World, s: nat) {
    s < |ts.senders| && forall r :: 0 <= r < |ts.senders| && ts.senders[r].Checked? ==> r == s
  }

  /** The pump thread is where its stage says, and the stream holds what has been handled so far. */
  ghost predicate StageSound(w: World, events: seq<Pending>, key: S.Key, c: S.Consumer) {
    match w.stage
    case Idle =>
      && w.ts.sent == c.received && T.NoSendPending(w.ts)
      && w.ts.closed == w.ts.channelClosed == c.closed.Some?
    case Adding(s) =>
      && Next(w, events, key) && S.IsTask(events[w.done]) && w.ts.sent == c.received && OnlyPending(w.ts, s)
      && w.ts.senders[s] == T.Checked(events[w.done].payload) && !w.ts.closed && c.closed.None?
    case Signalling(s) =>
      && Next(w, events, key) && S.IsTask(events[w.done]) && w.ts.sent == c.received + [events[w.done].payload]
      && T.NoSendPending(w.ts) && s < |w.ts.senders| && w.ts.senders[s].Added? && !w.ts.closed && c.closed.None?
    case Closing =>
      && Next(w, events, key) && events[w.done].kind == TaskStreamEnd && w.ts.sent == c.received
      && T.NoSendPending(w.ts) && w.ts.closed && w.ts.channelClosed == c.closed.Some?
  }

  ghost predicate HandlerSound(w: World, events: seq<Pending>, key: S.Key) {
    && w.done <= |events|
    && var c := Handled(events, key, w.done);
       w.failure == c.failure && w.cause == c.closed && StageSound(w, events, key, c)
  }

  ghost predicate Inv(w: World, events: seq<Pending>, key: S.Key) {
    StreamSound(w.ts) && HandlerSound(w, events, key)
  }

  lemma QuietEventIsSound(w: World, events: seq<Pending>, key: S.Key, step: Step)
    requires Inv(w, events, key) && Enabled(w, events, key, step) && (step.Skip? || step.RecordFailure?)
    ensures Inv(Do(w, events, key, step), events, key)
  {
    HandlesOneMore(events, key, w.done);
  }

  lemma CheckingIsSound(w: World, events: seq<Pending>, key: S.Key)
    requires Inv(w, events, key) && Enabled(w, events, key, BeginTask)
    ensures Inv(Do(w, events, key, BeginTask), events, key)
  {
    HandlesOneMore(events, key, w.done);
    StreamStepIsSound(w.ts, T.SendChecks(events[w.done].payload));
  }

  lemma AddingIsSound(w: World, events: seq<Pending>, key: S.Key)
    requires Inv(w, events, key) && Enabled(w, events, key, AddTask)
    ensures Inv(Do(w, events, key, AddTask), events, key)
  {
    StreamStepIsSound(w.ts, T.SendAdds(w.stage.s));
    AddingOnlyAppends(w.ts, w.stage.s);
  }

  lemma SignalEventIsSound(w: World, events: seq<Pending>, key: S.Key, heir: Option<nat>)
    requires Inv(w, events, key) && Enabled(w, events, key, SignalTask(heir))
    ensures Inv(Do(w, events, key, SignalTask(heir)), events, key)
  {
    HandlesOneMore(events, key, w.done);
    StreamStepIsSound(w.ts, T.SendSignals(w.stage.s, heir));
    SignallingOnlyWakes(w.ts, w.stage.s, heir);
    assert T.ChannelSound(w.ts);
  }

  lemma CloseEventIsSound(w: World, events: seq<Pending>, key: S.Key, step: Step)
    requires Inv(w, events, key) && Enabled(w, events, key, step) && (step.BeginClose? || step.EndClose?)
    ensures Inv(Do(w, events, key, step), events, key)
  {
    HandlesOneMore(events, key, w.done);
    if step.BeginClose? {
      StreamStepIsSound(w.ts, T.MarkClosed);
    } else {
      StreamStepIsSound(w.ts, T.CloseChannel);
    }
  }

  lemma ReceiverIsSound(w: World, events: seq<Pending>, key: S.Key, s: T.Step)
    requires Inv(w, events, key) && Enabled(w, events, key, Receive(s))
    ensures Inv(Do(w, events, key, Receive(s)), events, key)
  {
    StreamStepIsSound(w.ts, s);
    ReceiversOnlyTake(w.ts, s);
  }

  lemma StepKeepsInv(w: World, events: seq<Pending>, key: S.Key, step: Step)
    requires Inv(w, events, key) && Enabled(w, events, key, step)
    ensures Inv(Do(w, events, key, step), events, key)
  {
    match step
    case Skip | RecordFailure => QuietEventIsSound(w, events, key, step);
    case BeginTask => CheckingIsSound(w, events, key);
    case AddTask => AddingIsSound(w, events, key);
    case SignalTask(heir) => SignalEventIsSound(w, events, key, heir);
    case BeginClose | EndClose => CloseEventIsSound(w, events, key, step);
    case Receive(s) => ReceiverIsSound(w, events, key, s);
  }

  lemma StartIsSound(events: seq<Pending>, key: S.Key)
    ensures Inv(NEW_WORLD, events, key)
  {
    assert events[..0] == [];
  }

  /** Over every run: the stream holds exactly what the handler has been through, and is closed by it alone. */
  lemma {:induction false} RunsAreSafe(run: seq<World>, steps: seq<Step>, events: seq<Pending>, key: S.Key, k: nat)
    requires IsRun(run, steps, events, key) && k < |run|
    ensures Inv(run[k], events, key)
  {
    if k == 0 {
      StartIsSound(events, key);
    } else {
      RunsAreSafe(run, steps, events, key, k - 1);
      assert Linked(run, steps, events, key, k - 1);
      StepKeepsInv(run[k - 1], events, key, steps[k - 1]);
    }
  }

  /** The operation on the stream that a step is, if it is one. */
  function StreamStep(w: World, events: seq<Pending>, key: S.Key, step: Step): Option<T.Step>
    requires Enabled(w, events, key, step)
  {
    match step
    case Skip | RecordFailure => None
    case BeginTask => Some(T.SendChecks(events[w.done].payload))
    case AddTask => Some(T.SendAdds(w.stage.s))
    case SignalTask(heir) => Some(T.SendSignals(w.stage.s, heir))
    case BeginClose => Some(T.MarkClosed)
    case EndClose => Some(T.CloseChannel)
    case Receive(s) => Some(s)
  }

  /** Seen from the stream every step is one operation of the stream's own system, or none. */
  lemma StreamPartSteps(w: World, events: seq<Pending>, key: S.Key, step: Step)
    requires Enabled(w, events, key, step)
    ensures match StreamStep(w, events, key, step)
            case None => Do(w, events, key, step).ts == w.ts
            case Some(s) => T.Enabled(w.ts, s) && Do(w, events, key, step).ts == T.Do(w.ts, s)
  {
  }

  /** The operations the handler still takes for the events it has not finished, at most three each. */
  function HandlerLeft(w: World, events: seq<Pending>): int {
    3 * (|events| - w.done) - match w.stage case Idle => 0 case Adding(_) | Closing => 1 case Signalling(_) => 2
  }

  predicate HandlerStep(step: Step) {
    !step.Receive?
  }

  lemma HandlerMovesOn(w: World, events: seq<Pending>, key: S.Key, step: Step)
    requires Enabled(w, events, key, step)
    ensures HandlerLeft(Do(w, events, key, step), events) + (if HandlerStep(step) then 1 else 0) <= HandlerLeft(w, events)
  {
  }

  /** The handler works through the queue: at most three operations an event, whatever the receivers do. */
  lemma {:induction false} HandlerStepsAreBounded(run: seq<World>, steps: seq<Step>, events: seq<Pending>, key: S.Key, k: nat)
    requires IsRun(run, steps, events, key) && k < |run|
    ensures Runs.Count(steps[..k], HandlerStep) + HandlerLeft(run[k], events) <= 3 * |events|
  {
    if k > 0 {
      HandlerStepsAreBounded(run, steps, events, key, k - 1);
      assert Linked(run, steps, events, key, k - 1);
      Runs.CountNext(steps, k - 1, HandlerStep);
      HandlerMovesOn(run[k - 1], events, key, steps[k - 1]);
    }
  }

  /** No receiver can keep it from going on, as long as there is an event of a kind the handler gets. */
  lemma HandlerCanGoOn(w: World, events: seq<Pending>, key: S.Key) returns (step: Step)
    requires Inv(w, events, key) && w.done < |events|
    ensures Enabled(w, events, key, step) && HandlerStep(step)
  {
    var heir := None;
    if !w.ts.channelClosed && T.SomeoneParked(w.ts) {
      var c: nat :| c < |w.ts.calls| && w.ts.calls[c] == T.Parked;
      heir := Some(c);
    }
    step := match w.stage
            case Adding(_) => AddTask
            case Signalling(_) => SignalTask(heir)
            case Closing => EndClose
            case Idle =>
              if !Next(w, events, key) then Skip
              else if S.IsTask(events[w.done]) then BeginTask
              else if events[w.done].kind == TaskStreamEnd then BeginClose
              else RecordFailure;
  }

  // ---------------------------------------------------------------------------------------------
  // From Core's polls to the receivers

  lemma {:induction false} OnlyOfPrefix(events: seq<Pending>, key: S.Key, n: nat)
    requires n <= |events|
    ensures S.Only(events[..n], key) <= S.Only(events, key)
    decreases |events|
  {
    if n == |events| {
      assert events[..n] == events;
    } else {
      var earlier := events[..|events| - 1];
      OnlyOfPrefix(earlier, key, n);
      assert earlier[..n] == events[..n];
    }
  }

  lemma FirstTasks(e: seq<Pending>, n: nat)
    ensures S.TasksIn(S.FirstOf(e, n)) <= S.TasksIn(e)
  {
    var m := Min(n, |e|);
    S.TasksInJoin(e[..m], e[m..]);
    assert e[..m] + e[m..] == e;
  }

  /** What the handler has been through is a beginning of what the stream's own pump emits. */
  lemma HandledIsOwn(polls: map<S.Key, seq<S.Poll>>, schedule: seq<S.Key>, key: S.Key, done: nat) returns (m: nat)
    requires (forall x :: x in polls ==> x.kind < 3) && key in polls && done <= |S.Mix(polls, schedule)|
    ensures m <= |S.EventsOf(polls, key)|
    ensures S.Only(S.Mix(polls, schedule)[..done], key) == S.FirstOf(S.EventsOf(polls, key), m)
  {
    var own := S.Only(S.Mix(polls, schedule)[..done], key);
    OnlyOfPrefix(S.Mix(polls, schedule), key, done);
    S.MixKeepsEachStream(polls, schedule, key);
    m := |own|;
    assert S.FirstOf(S.EventsOf(polls, key), m) == own;
  }

  /** A stage in the middle of a task is one event further than what has been handled. */
  lemma SentIsOwn(polls: map<S.Key, seq<S.Poll>>, schedule: seq<S.Key>, key: S.Key, w: World)
    requires (forall x :: x in polls ==> x.kind < 3) && key in polls && Inv(w, S.Mix(polls, schedule), key)
    ensures w.ts.sent <= S.TasksPolled(polls[key])
  {
    var events := S.Mix(polls, schedule);
    S.StreamShape(key, polls[key]);
    var done := if w.stage.Signalling? then w.done + 1 else w.done;
    if w.stage.Signalling? { HandlesOneMore(events, key, w.done); }
    assert w.ts.sent == Handled(events, key, done).received;
    var m := HandledIsOwn(polls, schedule, key, done);
    S.ReplayedPrefix(S.EventsOf(polls, key), m, key);
    FirstTasks(S.EventsOf(polls, key), m);
  }

  /**
   End to end, for any number of workers, any mixture in the queue and any receivers: the tasks taken are
   the first ones this stream's own pump polled, in poll order; and whoever is told of the closure is told
   of that pump's panic or first poll error, once it has ended and every task it polled has been taken.
   */
  lemma ReceiversGetTheirOwnStream(
      polls: map<S.Key, seq<S.Poll>>, schedule: seq<S.Key>, key: S.Key, run: seq<World>, steps: seq<Step>, k: nat)
    requires (forall x :: x in polls ==> x.kind < 3) && key in polls
    requires IsRun(run, steps, S.Mix(polls, schedule), key) && k < |run|
    ensures run[k].ts.taken <= |run[k].ts.sent| && run[k].ts.sent <= S.TasksPolled(polls[key])
    ensures T.Reported(run[k].ts) ==>
      && S.Ends(polls[key]) && run[k].ts.taken == |S.TasksPolled(polls[key])|
      && run[k].cause == Some(S.CauseOf(polls[key]))
  {
    var w, events := run[k], S.Mix(polls, schedule);
    RunsAreSafe(run, steps, events, key, k);
    SentIsOwn(polls, schedule, key, w);
    if T.Reported(w.ts) {
      var c :| 0 <= c < |w.ts.calls| && w.ts.calls[c] == T.Threw(T.ChannelClosed);
      assert T.KnowsClosure(w.ts.calls[c]) && T.QueueEmpty(w.ts);
      var m := HandledIsOwn(polls, schedule, key, w.done);
      S.StreamShape(key, polls[key]);
      S.PumpReportsItsCause(key, polls[key], false);
      S.ReplayedPrefix(S.EventsOf(polls, key), m, key);
    }
  }
}
