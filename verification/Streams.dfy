/**
 The stream protocol end to end: what a poll pump pushes, how the pushed events of all pumps mix in
 the one completion queue, and what each consumer's task stream gets out of the mixture.
 */
module Streams {
  import opened Bridge
  import Queue

  type Bytes = seq<byte>

  /** What one poll of Core yields. */
  datatype Poll = PolledTask(task: Bytes) | PollShutDown | PollError(message: Bytes) | PollPanic(message: Bytes)

  /** A pump is known by its worker and its kind: 0 workflow activations, 1 activities, 2 nexus tasks. */
  datatype Key = Key(worker: nat, kind: nat)

  function CompletionKind(kind: nat): KtKind {
    if kind == 0 then TaskWorkflowActivation else if kind == 1 then TaskActivity else TaskNexus
  }

  function TaskEvent(key: Key, task: Bytes): Pending {
    Pending(0, CompletionKind(key.kind), KT_OK, task, key.worker, key.kind)
  }

  function EndEvent(key: Key): Pending {
    Pending(0, TaskStreamEnd, KT_OK, [], key.worker, key.kind)
  }

  function FailedEvent(key: Key, status: int, message: Bytes): Pending {
    Pending(0, WorkerFailed, status, message, key.worker, key.kind)
  }

  /** The two polls after which a pump stops. */
  predicate Terminal(p: Poll) {
    p.PollShutDown? || p.PollPanic?
  }

  /** What one turn of the pump pushes. */
  function Turn(key: Key, poll: Poll, reported: bool): seq<Pending> {
    match poll
    case PolledTask(task) => [TaskEvent(key, task)]
    case PollShutDown => [EndEvent(key)]
    case PollPanic(message) => [FailedEvent(key, KT_ERR_PANIC, message), EndEvent(key)]
    case PollError(message) => if reported then [] else [FailedEvent(key, KT_ERR_FAILED, message)]
  }

  /** The pump's pushes for a sequence of polls; a shorter sequence is a pump aborted earlier. */
  function Emits(key: Key, polls: seq<Poll>, reported: bool): seq<Pending> {
    if polls == [] then []
    else if Terminal(polls[0]) then Turn(key, polls[0], reported)
    else Turn(key, polls[0], reported) + Emits(key, polls[1..], reported || polls[0].PollError?)
  }

  // ---------------------------------------------------------------------------------------------
  // The shape of one stream

  function Reports(events: seq<Pending>, status: int): nat {
    if events == [] then 0
    else (if events[0].kind == WorkerFailed && events[0].status == status then 1 else 0) + Reports(events[1..], status)
  }

  predicate IsTask(p: Pending) {
    p.kind == TaskWorkflowActivation || p.kind == TaskActivity || p.kind == TaskNexus
  }

  function TasksIn(events: seq<Pending>): seq<Bytes> {
    if events == [] then []
    else (if IsTask(events[0]) then [events[0].payload] else []) + TasksIn(events[1..])
  }

  /** The tasks polled before the stream's terminal poll. */
  function TasksPolled(polls: seq<Poll>): seq<Bytes> {
    if polls == [] || Terminal(polls[0]) then []
    else (if polls[0].PolledTask? then [polls[0].task] else []) + TasksPolled(polls[1..])
  }

  /** Which consumer an event is for; the JVM reads a task's stream from its kind and the rest from `aux1`. */
  function StreamOf(p: Pending): Option<Key> {
    if IsTask(p) then Some(Key(p.aux0, if p.kind == TaskWorkflowActivation then 0 else if p.kind == TaskActivity then 1 else 2))
    else if (p.kind == TaskStreamEnd || p.kind == WorkerFailed) && p.aux1 < 3 then Some(Key(p.aux0, p.aux1))
    else None
  }

  /** Pushed (request id 0), owning no handle, addressed to the one stream, and an error only if it reports one. */
  predicate AllFor(e: seq<Pending>, key: Key) {
    forall i :: 0 <= i < |e| ==>
      && e[i].reqId == 0 && e[i].Carried() == None && StreamOf(e[i]) == Some(key)
      && (e[i].status != KT_OK <==> e[i].kind == WorkerFailed)
  }

  ghost predicate Ends(polls: seq<Poll>) {
    exists i :: 0 <= i < |polls| && Terminal(polls[i])
  }

  predicate EndsOnlyLast(e: seq<Pending>) {
    forall i :: 0 <= i < |e| && e[i].kind == TaskStreamEnd ==> i == |e| - 1
  }

  predicate EndsWithEnd(e: seq<Pending>) {
    e != [] && e[|e| - 1].kind == TaskStreamEnd
  }

  lemma EndsUnfolds(polls: seq<Poll>)
    requires polls != []
    ensures Ends(polls) <==> Terminal(polls[0]) || Ends(polls[1..])
  {
    if i :| 0 <= i < |polls| && Terminal(polls[i]) {
      assert i == 0 || polls[1..][i - 1] == polls[i];
    }
    if i :| 0 <= i < |polls| - 1 && Terminal(polls[1..][i]) {
      assert polls[i + 1] == polls[1..][i];
    }
  }

  lemma {:induction false} TasksInJoin(a: seq<Pending>, b: seq<Pending>)
    ensures TasksIn(a + b) == TasksIn(a) + TasksIn(b)
  {
    if a == [] {
      assert a + b == b;
    } else {
      var joined := a + b;
      assert joined[0] == a[0] && joined[1..] == a[1..] + b;
      TasksInJoin(a[1..], b);
    }
  }

  lemma {:induction false} ReportsJoin(a: seq<Pending>, b: seq<Pending>, status: int)
    ensures Reports(a + b, status) == Reports(a, status) + Reports(b, status)
  {
    if a == [] {
      assert a + b == b;
    } else {
      ReportsJoin(a[1..], b, status);
      assert (a + b)[0] == a[0] && (a + b)[1..] == a[1..] + b;
    }
  }

  lemma OneEvent(p: Pending, status: int)
    ensures TasksIn([p]) == if IsTask(p) then [p.payload] else []
    ensures Reports([p], status) == if p.kind == WorkerFailed && p.status == status then 1 else 0
  {
    assert [p][1..] == [];
  }

  /** One turn on its own. */
  lemma TurnShape(key: Key, poll: Poll, reported: bool)
    requires key.kind < 3
    ensures var t := Turn(key, poll, reported);
            && AllFor(t, key) && TasksIn(t) == (if poll.PolledTask? then [poll.task] else [])
            && Reports(t, KT_ERR_FAILED) == (if poll.PollError? && !reported then 1 else 0)
            && Reports(t, KT_ERR_PANIC) == (if poll.PollPanic? then 1 else 0)
  {
    var t := Turn(key, poll, reported);
    if poll.PollPanic? {
      var failed, end := FailedEvent(key, KT_ERR_PANIC, poll.message), EndEvent(key);
      assert t == [failed] + [end];
      TasksInJoin([failed], [end]);
      ReportsJoin([failed], [end], KT_ERR_FAILED);
      ReportsJoin([failed], [end], KT_ERR_PANIC);
      OneEvent(failed, KT_ERR_FAILED);
      OneEvent(failed, KT_ERR_PANIC);
      OneEvent(end, KT_ERR_FAILED);
      OneEvent(end, KT_ERR_PANIC);
    } else if t != [] {
      assert t == [t[0]];
      OneEvent(t[0], KT_ERR_FAILED);
      OneEvent(t[0], KT_ERR_PANIC);
    }
  }

  lemma {:induction false} StreamEndsOnce(key: Key, polls: seq<Poll>, reported: bool)
    requires key.kind < 3
    ensures EndsOnlyLast(Emits(key, polls, reported))
    ensures EndsWithEnd(Emits(key, polls, reported)) <==> Ends(polls)
  {
    if polls != [] {
      EndsUnfolds(polls);
      if !Terminal(polls[0]) {
        var next := reported || polls[0].PollError?;
        StreamEndsOnce(key, polls[1..], next);
        var e, rest := Emits(key, polls, reported), Emits(key, polls[1..], next);
        assert e == rest || (e == [e[0]] + rest && e[0].kind != TaskStreamEnd);
      }
    }
  }

  lemma {:induction false} StreamReportsOnce(key: Key, polls: seq<Poll>, reported: bool)
    requires key.kind < 3
    ensures Reports(Emits(key, polls, reported), KT_ERR_FAILED) <= (if reported then 0 else 1)
    ensures Reports(Emits(key, polls, reported), KT_ERR_PANIC) <= 1
  {
    if polls != [] {
      var turn := Turn(key, polls[0], reported);
      TurnShape(key, polls[0], reported);
      if !Terminal(polls[0]) {
        var next := reported || polls[0].PollError?;
        StreamReportsOnce(key, polls[1..], next);
        ReportsJoin(turn, Emits(key, polls[1..], next), KT_ERR_FAILED);
        ReportsJoin(turn, Emits(key, polls[1..], next), KT_ERR_PANIC);
      }
    }
  }

  lemma {:induction false} StreamKeepsTasks(key: Key, polls: seq<Poll>, reported: bool)
    requires key.kind < 3
    ensures TasksIn(Emits(key, polls, reported)) == TasksPolled(polls)
  {
    if polls != [] {
      TurnShape(key, polls[0], reported);
      if !Terminal(polls[0]) {
        var next := reported || polls[0].PollError?;
        StreamKeepsTasks(key, polls[1..], next);
        TasksInJoin(Turn(key, polls[0], reported), Emits(key, polls[1..], next));
      }
    }
  }

  lemma {:induction false} StreamNamesItself(key: Key, polls: seq<Poll>, reported: bool)
    requires key.kind < 3
    ensures AllFor(Emits(key, polls, reported), key)
  {
    if polls != [] {
      TurnShape(key, polls[0], reported);
      if !Terminal(polls[0]) {
        StreamNamesItself(key, polls[1..], reported || polls[0].PollError?);
      }
    }
  }

  /** Tasks, at most one error report and one panic report, then exactly one end and nothing after it. */
  lemma StreamShape(key: Key, polls: seq<Poll>)
    requires key.kind < 3
    ensures var e := Emits(key, polls, false);
            && EndsOnlyLast(e) && (EndsWithEnd(e) <==> Ends(polls))
            && Reports(e, KT_ERR_FAILED) <= 1 && Reports(e, KT_ERR_PANIC) <= 1
            && TasksIn(e) == TasksPolled(polls) && AllFor(e, key)
  {
    StreamEndsOnce(key, polls, false);
    StreamReportsOnce(key, polls, false);
    StreamKeepsTasks(key, polls, false);
    StreamNamesItself(key, polls, false);
  }

  /** What pushing `events` makes of a queue; a closed one takes nothing. */
  function After(before: seq<Pending>, closed: bool, events: seq<Pending>): seq<Pending> {
    if closed then before else before + events
  }

  /** One turn of the loop. */
  method TakeTurn(queue: Queue.CompletionQueue, key: Key, poll: Poll, reported: bool) returns (next: bool)
    requires key.kind < 3
    modifies queue
    ensures queue.queue == After(old(queue.queue), old(queue.closed), Turn(key, poll, reported))
    ensures queue.wakes == old(queue.wakes) && queue.closed == old(queue.closed)
    ensures next == (reported || poll.PollError?)
  {
    next := reported;
    match poll
    case PolledTask(task) => var _ := queue.PushBack(TaskEvent(key, task));
    case PollShutDown => var _ := queue.PushBack(EndEvent(key));
    case PollPanic(message) =>
      var _ := queue.PushBack(FailedEvent(key, KT_ERR_PANIC, message));
      var _ := queue.PushBack(EndEvent(key));
    case PollError(message) =>
      if !reported {
        next := true;
        var _ := queue.PushBack(FailedEvent(key, KT_ERR_FAILED, message));
      }
  }

  lemma AfterBoth(before: seq<Pending>, closed: bool, a: seq<Pending>, b: seq<Pending>)
    ensures After(After(before, closed, a), closed, b) == After(before, closed, a + b)
    ensures After(before, closed, []) == before
  {
    assert (before + a) + b == before + (a + b);
    assert before + [] == before;
  }

  /** The rest of a pump's pushes is this turn's and those of the turns after it. */
  lemma RestOfPump(key: Key, polls: seq<Poll>, i: nat, reported: bool)
    requires i < |polls|
    ensures Emits(key, polls[i..], reported) == Turn(key, polls[i], reported)
      + if Terminal(polls[i]) then [] else Emits(key, polls[i + 1..], reported || polls[i].PollError?)
  {
    assert polls[i..][0] == polls[i] && polls[i..][1..] == polls[i + 1..];
    assert Turn(key, polls[i], reported) + [] == Turn(key, polls[i], reported);
  }

  /** The pump loop itself, driven by the polls Core answers with. */
  method RunPump(queue: Queue.CompletionQueue, key: Key, polls: seq<Poll>)
    requires key.kind < 3
    modifies queue
    ensures queue.queue == After(old(queue.queue), old(queue.closed), Emits(key, polls, false))
    ensures queue.wakes == old(queue.wakes) && queue.closed == old(queue.closed)
  {
    var reported := false;
    var i := 0;
    while i < |polls|
      invariant i <= |polls| && queue.closed == old(queue.closed) && queue.wakes == old(queue.wakes)
      invariant After(queue.queue, queue.closed, Emits(key, polls[i..], reported))
             == After(old(queue.queue), queue.closed, Emits(key, polls, false))
      decreases |polls| - i
    {
      ghost var before, was := queue.queue, reported;
      RestOfPump(key, polls, i, was);
      reported := TakeTurn(queue, key, polls[i], reported);
      AfterBoth(before, queue.closed, Turn(key, polls[i], was),
                if Terminal(polls[i]) then [] else Emits(key, polls[i + 1..], reported));
      AfterBoth(queue.queue, queue.closed, [], []);
      if Terminal(polls[i]) {
        return;
      }
      i := i + 1;
    }
  }

  // ---------------------------------------------------------------------------------------------
  // The mixture

  function Only(events: seq<Pending>, key: Key): seq<Pending> {
    if events == [] then []
    else
      var p := events[|events| - 1];
      Only(events[..|events| - 1], key) + if StreamOf(p) == Some(key) then [p] else []
  }

  /** How often `key` has been scheduled. */
  function Turns(schedule: seq<Key>, key: Key): nat {
    if schedule == [] then 0
    else Turns(schedule[..|schedule| - 1], key) + if schedule[|schedule| - 1] == key then 1 else 0
  }

  function EventsOf(polls: map<Key, seq<Poll>>, key: Key): seq<Pending> {
    if key in polls then Emits(key, polls[key], false) else []
  }

  /** The event at `turn`, or nothing once there is none left. */
  function Nth(e: seq<Pending>, turn: nat): seq<Pending> {
    if turn < |e| then [e[turn]] else []
  }

  /** The queue's accepted events when the pumps push in the order of `schedule`, each its own next event. */
  function Mix(polls: map<Key, seq<Poll>>, schedule: seq<Key>): seq<Pending> {
    if schedule == [] then []
    else
      var earlier := schedule[..|schedule| - 1];
      var key := schedule[|schedule| - 1];
      Mix(polls, earlier) + Nth(EventsOf(polls, key), Turns(earlier, key))
  }

  lemma OnlyGrows(events: seq<Pending>, p: Pending, key: Key)
    ensures Only(events + [p], key) == Only(events, key) + if StreamOf(p) == Some(key) then [p] else []
  {
    assert (events + [p])[..|events|] == events;
  }

  function FirstOf(e: seq<Pending>, n: nat): seq<Pending> {
    e[..Min(n, |e|)]
  }

  lemma OneMoreTurn(sofar: seq<Pending>, e: seq<Pending>, turn: nat, last: Key, key: Key)
    requires AllFor(e, last)
    ensures Only(sofar + Nth(e, turn), key) == Only(sofar, key) + if last == key then Nth(e, turn) else []
    ensures FirstOf(e, turn + 1) == FirstOf(e, turn) + Nth(e, turn)
  {
    if turn < |e| {
      OnlyGrows(sofar, e[turn], key);
    } else {
      assert sofar + [] == sofar;
    }
  }

  lemma EventsNameTheirStream(polls: map<Key, seq<Poll>>, key: Key)
    requires forall k :: k in polls ==> k.kind < 3
    ensures AllFor(EventsOf(polls, key), key)
  {
    if key in polls {
      StreamShape(key, polls[key]);
    }
  }

  /** In any mixture, a stream's own events are a prefix of what its pump emits, in the pump's order. */
  lemma {:induction false} MixKeepsEachStream(polls: map<Key, seq<Poll>>, schedule: seq<Key>, key: Key)
    requires forall k :: k in polls ==> k.kind < 3
    ensures Only(Mix(polls, schedule), key) == FirstOf(EventsOf(polls, key), Turns(schedule, key))
  {
    if schedule != [] {
      var earlier := schedule[..|schedule| - 1];
      var last := schedule[|schedule| - 1];
      MixKeepsEachStream(polls, earlier, key);
      EventsNameTheirStream(polls, last);
      OneMoreTurn(Mix(polls, earlier), EventsOf(polls, last), Turns(earlier, last), last, key);
    }
  }

  // ---------------------------------------------------------------------------------------------
  // The JVM side

  datatype StreamFailure = StreamFailure(status: int, message: Bytes)

  /** `closed` is how the stream was first closed, with the failure it carried. */
  datatype Consumer = Consumer(received: seq<Bytes>, failure: Option<StreamFailure>, closed: Option<Option<StreamFailure>>)

  const NEW_CONSUMER: Consumer := Consumer([], None, None)

  function Send(c: Consumer, task: Bytes): Consumer {
    if c.closed.Some? then c else c.(received := c.received + [task])
  }

  function CloseWith(c: Consumer, cause: Option<StreamFailure>): Consumer {
    if c.closed.Some? then c else c.(closed := Some(cause))
  }

  /** Three task streams and the last failure recorded for each. */
  type Streams3 = seq<Consumer>

  /** `KtWorker.onEvent`. */
  function OnEvent(w: Streams3, p: Pending): Streams3
    requires |w| == 3
  {
    match p.kind
    case TaskWorkflowActivation => w[0 := Send(w[0], p.payload)]
    case TaskActivity => w[1 := Send(w[1], p.payload)]
    case TaskNexus => w[2 := Send(w[2], p.payload)]
    case TaskStreamEnd => if p.aux1 < 3 then w[p.aux1 := CloseWith(w[p.aux1], w[p.aux1].failure)] else w
    case WorkerFailed =>
      if p.aux1 < 3 then w[p.aux1 := w[p.aux1].(failure := Some(StreamFailure(p.status, p.payload)))] else w
    case _ => w
  }

  ghost predicate Workers(rt: map<nat, Streams3>) {
    forall w :: w in rt ==> |rt[w]| == 3
  }

  /** `KtRuntime.onPushed`: logs go to the logger, everything else to the handler of the worker in `aux0`. */
  function OnPushed(rt: map<nat, Streams3>, p: Pending): (r: map<nat, Streams3>)
    requires Workers(rt)
    ensures Workers(r) && r.Keys == rt.Keys
  {
    if p.kind == ServerLog || p.kind == Log || p.aux0 !in rt then rt else rt[p.aux0 := OnEvent(rt[p.aux0], p)]
  }

  function Deliver(rt: map<nat, Streams3>, events: seq<Pending>): (r: map<nat, Streams3>)
    requires Workers(rt)
    ensures Workers(r) && r.Keys == rt.Keys
  {
    if events == [] then rt else OnPushed(Deliver(rt, events[..|events| - 1]), events[|events| - 1])
  }

  /** One event of a stream on its own. */
  function Apply(c: Consumer, p: Pending): Consumer {
    if IsTask(p) then Send(c, p.payload)
    else if p.kind == TaskStreamEnd then CloseWith(c, c.failure)
    else c.(failure := Some(StreamFailure(p.status, p.payload)))
  }

  function Replay(c: Consumer, events: seq<Pending>): Consumer {
    if events == [] then c else Apply(Replay(c, events[..|events| - 1]), events[|events| - 1])
  }

  lemma OneEventReachesOneStream(rt: map<nat, Streams3>, p: Pending, key: Key)
    requires Workers(rt) && key.worker in rt && key.kind < 3
    ensures var c := rt[key.worker][key.kind];
            OnPushed(rt, p)[key.worker][key.kind] == if StreamOf(p) == Some(key) then Apply(c, p) else c
  {
  }

  /** What names none of the three streams changes nothing at all. */
  lemma UnknownEventsChangeNothing(rt: map<nat, Streams3>, p: Pending)
    requires Workers(rt)
    ensures StreamOf(p).Some? ==> StreamOf(p).value.kind < 3
    ensures StreamOf(p) == None || StreamOf(p).value.worker !in rt ==> OnPushed(rt, p) == rt
  {
    if p.aux0 in rt && StreamOf(p) == None { assert OnEvent(rt[p.aux0], p) == rt[p.aux0]; }
  }

  lemma ReplayGrows(c: Consumer, events: seq<Pending>, p: Pending)
    ensures Replay(c, events + [p]) == Apply(Replay(c, events), p)
    ensures events + [] == events
  {
    assert (events + [p])[..|events|] == events;
  }

  /** A consumer sees its own events and nothing else, whatever else is in the queue. */
  lemma {:induction false} StreamsDoNotInterfere(rt: map<nat, Streams3>, events: seq<Pending>, key: Key)
    requires Workers(rt) && key.worker in rt && key.kind < 3
    ensures Deliver(rt, events)[key.worker][key.kind] == Replay(rt[key.worker][key.kind], Only(events, key))
  {
    if events != [] {
      var earlier := events[..|events| - 1];
      var p := events[|events| - 1];
      StreamsDoNotInterfere(rt, earlier, key);
      OneEventReachesOneStream(Deliver(rt, earlier), p, key);
      ReplayGrows(rt[key.worker][key.kind], Only(earlier, key), p);
    }
  }

  /** The failure the closing event will find: the last one reported so far. */
  function LastFailure(events: seq<Pending>): Option<StreamFailure> {
    if events == [] then None
    else
      var p := events[|events| - 1];
      if p.kind == WorkerFailed then Some(StreamFailure(p.status, p.payload)) else LastFailure(events[..|events| - 1])
  }

  lemma {:induction false} LastFailureJoins(a: seq<Pending>, b: seq<Pending>)
    ensures LastFailure(a + b) == if LastFailure(b).Some? then LastFailure(b) else LastFailure(a)
    decreases |b|
  {
    if b == [] {
      assert a + b == a;
    } else {
      LastFailureJoins(a, b[..|b| - 1]);
      assert (a + b)[..|a + b| - 1] == a + b[..|b| - 1];
    }
  }

  /** The panic a pump's polls end in, if they do. */
  function PanicOf(polls: seq<Poll>): Option<StreamFailure> {
    if polls == [] || polls[0].PollShutDown? then None
    else if polls[0].PollPanic? then Some(StreamFailure(KT_ERR_PANIC, polls[0].message))
    else PanicOf(polls[1..])
  }

  /** Why a stream ended: the panic, otherwise the first error Core answered a poll with, otherwise nothing. */
  function CauseOf(polls: seq<Poll>): Option<StreamFailure> {
    if polls == [] || polls[0].PollShutDown? then None
    else if polls[0].PolledTask? then CauseOf(polls[1..])
    else if polls[0].PollPanic? || PanicOf(polls[1..]).Some? then PanicOf(polls)
    else Some(StreamFailure(KT_ERR_FAILED, polls[0].message))
  }

  lemma TurnReports(key: Key, poll: Poll, reported: bool)
    requires key.kind < 3
    ensures LastFailure(Turn(key, poll, reported)) ==
            match poll
            case PollPanic(message) => Some(StreamFailure(KT_ERR_PANIC, message))
            case PollError(message) => if reported then None else Some(StreamFailure(KT_ERR_FAILED, message))
            case _ => None
  {
    if poll.PollPanic? {
      assert Turn(key, poll, reported)[..1] == [FailedEvent(key, KT_ERR_PANIC, poll.message)];
    }
  }

  /** What a pump reports last is the status and message of the poll that stands for its end. */
  lemma {:induction false} PumpReportsItsCause(key: Key, polls: seq<Poll>, reported: bool)
    requires key.kind < 3
    ensures LastFailure(Emits(key, polls, reported)) == if reported then PanicOf(polls) else CauseOf(polls)
  {
    if polls != [] {
      TurnReports(key, polls[0], reported);
      if !Terminal(polls[0]) {
        var next := reported || polls[0].PollError?;
        PumpReportsItsCause(key, polls[1..], next);
        LastFailureJoins(Turn(key, polls[0], reported), Emits(key, polls[1..], next));
      }
    }
  }

  predicate OpenUntilLast(events: seq<Pending>) {
    forall i :: 0 <= i < |events| - 1 ==> events[i].kind != TaskStreamEnd
  }

  lemma {:induction false} TasksInGrows(events: seq<Pending>, p: Pending)
    ensures TasksIn(events + [p]) == TasksIn(events) + if IsTask(p) then [p.payload] else []
  {
    if events == [] {
      assert ([] + [p])[1..] == [];
    } else {
      TasksInGrows(events[1..], p);
      assert (events + [p])[1..] == events[1..] + [p];
    }
  }

  predicate StreamKinds(events: seq<Pending>) {
    forall i :: 0 <= i < |events| ==> IsTask(events[i]) || events[i].kind == TaskStreamEnd || events[i].kind == WorkerFailed
  }

  /** A stream whose end comes last delivers its tasks in order, then closes with its last failure. */
  lemma {:induction false} ReplayMeaning(events: seq<Pending>)
    requires OpenUntilLast(events)
    requires StreamKinds(events)
    ensures var c := Replay(NEW_CONSUMER, events);
            && c.received == TasksIn(events) && c.failure == LastFailure(events)
            && c.closed == if EndsWithEnd(events) then Some(LastFailure(events)) else None
  {
    if events != [] {
      var earlier := events[..|events| - 1];
      var p := events[|events| - 1];
      assert earlier == [] || earlier[|earlier| - 1].kind != TaskStreamEnd;
      ReplayMeaning(earlier);
      TasksInGrows(earlier, p);
      assert events == earlier + [p];
    }
  }

  lemma PrefixShape(e: seq<Pending>, n: nat, key: Key)
    requires EndsOnlyLast(e) && AllFor(e, key)
    ensures var part := FirstOf(e, n);
            && OpenUntilLast(part) && StreamKinds(part)
            && (EndsWithEnd(part) <==> n >= |e| && EndsWithEnd(e)) && (n >= |e| ==> part == e)
  {
    var part := FirstOf(e, n);
    if n < |e| && n > 0 {
      assert part[|part| - 1] == e[n - 1];
    }
  }

  /** What replaying the first `n` of a stream's events leaves, for any stream of the right shape. */
  lemma ReplayedPrefix(e: seq<Pending>, n: nat, key: Key)
    requires EndsOnlyLast(e) && AllFor(e, key)
    ensures var c := Replay(NEW_CONSUMER, FirstOf(e, n));
            && c.received == TasksIn(FirstOf(e, n))
            && (c.closed.Some? <==> n >= |e| && EndsWithEnd(e))
            && (c.closed.Some? ==> FirstOf(e, n) == e && c.closed == Some(LastFailure(e)))
  {
    PrefixShape(e, n, key);
    ReplayMeaning(FirstOf(e, n));
  }

  /**
   End to end, for any number of workers and any mixture: each consumer has received exactly the tasks
   of its own pump's first events, in poll order; it is closed exactly when the pump's end is among
   them, and then with that pump's panic or first poll error and all the tasks polled before the end.
   */
  lemma EachConsumerGetsItsOwnStream(rt: map<nat, Streams3>, polls: map<Key, seq<Poll>>, schedule: seq<Key>, key: Key)
    requires Workers(rt) && (forall k :: k in polls ==> k.kind < 3) && key in polls && key.worker in rt
    requires rt[key.worker][key.kind] == NEW_CONSUMER
    ensures var e := EventsOf(polls, key);
            var n := Turns(schedule, key);
            var c := Deliver(rt, Mix(polls, schedule))[key.worker][key.kind];
            && c.received == TasksIn(FirstOf(e, n))
            && (c.closed.Some? <==> n >= |e| && Ends(polls[key]))
            && (c.closed.Some? ==> c.received == TasksPolled(polls[key]) && c.closed == Some(CauseOf(polls[key])))
  {
    StreamShape(key, polls[key]);
    PumpReportsItsCause(key, polls[key], false);
    MixKeepsEachStream(polls, schedule, key);
    StreamsDoNotInterfere(rt, Mix(polls, schedule), key);
    ReplayedPrefix(EventsOf(polls, key), Turns(schedule, key), key);
  }

  // ---------------------------------------------------------------------------------------------
  // The worker's event handler as the source updates it

  class KtWorker {
    var streams: seq<Consumer>

    constructor ()
      ensures streams == [NEW_CONSUMER, NEW_CONSUMER, NEW_CONSUMER]
    {
      streams := [NEW_CONSUMER, NEW_CONSUMER, NEW_CONSUMER];
    }

    method ChannelFor(aux1: nat) returns (kind: Option<nat>)
      ensures kind == if aux1 < 3 then Some(aux1) else None
    {
      var code := 0;
      while code < 3
        invariant code <= 3 && aux1 >= code
      {
        if code == aux1 {
          return Some(code);
        }
        code := code + 1;
      }
      kind := None;
    }

    method HandleEvent(p: Pending)
      requires |streams| == 3
      modifies this
      ensures |streams| == 3 && streams == OnEvent(old(streams), p)
    {
      match p.kind
      case TaskWorkflowActivation => streams := streams[0 := Send(streams[0], p.payload)];
      case TaskActivity => streams := streams[1 := Send(streams[1], p.payload)];
      case TaskNexus => streams := streams[2 := Send(streams[2], p.payload)];
      case TaskStreamEnd =>
        var kind := ChannelFor(p.aux1);
        if kind.Some? {
          streams := streams[kind.value := CloseWith(streams[kind.value], streams[kind.value].failure)];
        }
      case WorkerFailed =>
        var kind := ChannelFor(p.aux1);
        if kind.Some? {
          streams := streams[kind.value := streams[kind.value].(failure := Some(StreamFailure(p.status, p.payload)))];
        }
      case _ =>
    }
  }
}
