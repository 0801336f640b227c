/**
 The JVM pump on top of the native side: a run of `Requests` in lockstep with the pump's world. What the
 pump takes from native code, one completion for each request it accepted and none besides, is proved
 here instead of assumed.

 The pump's request `id` is native request id `id + 1`; native id 0 marks pushed events.
 */
module RoundTrip {
  import opened Bridge
  import P = Pump
  import R = Requests

  /** A terminal completion reaches the pump: the record of a drained batch is written out. */
  predicate Delivers(w: R.World, step: R.Step) {
    step.WriteOut? && step.i < |w.writing| && w.writing[step.i].reqId != 0
  }

  function Delivered(w: R.World, step: R.Step): Pending
    requires Delivers(w, step)
  {
    w.writing[step.i]
  }

  /** What polling a record does to the pump, whether the pump expects it or not. */
  function Receives(p: P.World, id: nat, handle: bool): P.World {
    p.(inflight := p.inflight - {id}, batch := p.batch + [P.Item(id, handle)])
  }

  predicate Accepts(w: R.World, step: R.Step) {
    step.Register? && step.reqId != 0 && !w.closed && step.reqId !in w.pending
  }

  /**
   A registration the native side accepts is the pump's `start` being accepted; a terminal record written
   out is polled by the pump thread; in all other steps the pump does something else or nothing.
   */
  ghost predicate Matches(w: R.World, step: R.Step, p: P.World, move: Option<P.Step>, p': P.World)
    requires R.Enabled(w, step)
  {
    if Delivers(w, step) then
      var c := Delivered(w, step);
      p.thread.Loop? && move == Some(P.Poll(c.reqId - 1, c.Carried().Some?)) && p' == Receives(p, c.reqId - 1, c.Carried().Some?)
    else
      && (Accepts(w, step) ==> move == Some(P.NativeAccepts(step.reqId - 1)))
      && (!Accepts(w, step) ==> move.None? || !move.value.NativeAccepts?)
      && (move.Some? ==> !move.value.Poll? && P.Enabled(p, move.value) && p' == P.Do(p, move.value))
      && (move.None? ==> p' == p)
  }

  ghost predicate Paired(
      run: seq<R.World>, steps: seq<R.Step>, pumps: seq<P.World>, moves: seq<Option<P.Step>>, k: nat)
    requires |run| == |pumps| == |steps| + 1 && |moves| == |steps| && k < |steps|
  {
    R.Enabled(run[k], steps[k]) && Matches(run[k], steps[k], pumps[k], moves[k], pumps[k + 1])
  }

  ghost predicate IsJointRun(run: seq<R.World>, steps: seq<R.Step>, pumps: seq<P.World>, moves: seq<Option<P.Step>>) {
    && R.IsRun(run, steps) && |pumps| == |run| && |moves| == |steps| && pumps[0] == P.NEW_WORLD
    && forall k: nat :: k < |steps| ==> Paired(run, steps, pumps, moves, k)
  }

  // ---------------------------------------------------------------------------------------------
  // Whose completion is where

  predicate Issued(p: P.World, id: nat) {
    id < |p.requests| && p.requests[id].phase == P.Issued
  }

  /** Accepted, and its completion already polled. */
  predicate Polled(p: P.World, id: nat) {
    Issued(p, id) && id !in p.inflight
  }

  function Bit(b: bool): nat {
    if b then 1 else 0
  }

  function CountUnder(ps: seq<Pending>, reqId: nat): nat {
    if ps == [] then 0 else Bit(ps[0].reqId == reqId) + CountUnder(ps[1..], reqId)
  }

  lemma {:induction false} CountJoins(a: seq<Pending>, b: seq<Pending>, reqId: nat)
    ensures CountUnder(a + b, reqId) == CountUnder(a, reqId) + CountUnder(b, reqId)
  {
    if a == [] {
      assert a + b == b;
    } else {
      CountJoins(a[1..], b, reqId);
      assert (a + b)[0] == a[0] && (a + b)[1..] == a[1..] + b;
    }
  }

  lemma CountOne(p: Pending, reqId: nat)
    ensures CountUnder([p], reqId) == Bit(p.reqId == reqId)
  {
    assert [p][1..] == [];
  }

  lemma CountWithout(ps: seq<Pending>, i: nat, reqId: nat)
    requires i < |ps|
    ensures CountUnder(ps, reqId) == CountUnder(ps[..i] + ps[i + 1..], reqId) + Bit(ps[i].reqId == reqId)
  {
    assert ps == ps[..i] + ([ps[i]] + ps[i + 1..]);
    CountJoins(ps[..i], [ps[i]] + ps[i + 1..], reqId);
    CountJoins([ps[i]], ps[i + 1..], reqId);
    CountJoins(ps[..i], ps[i + 1..], reqId);
    CountOne(ps[i], reqId);
  }

  /** Terminal completions under a request id that native code still has. */
  function Waiting(w: R.World, reqId: nat): nat {
    CountUnder(w.queue, reqId) + CountUnder(w.writing, reqId)
  }

  /** Every registration is one of the pump's accepted requests, and no two are the same. */
  ghost predicate IdsMatch(w: R.World, p: P.World) {
    && (forall r :: 0 <= r < |w.tasks| ==> w.tasks[r].reqId > 0 && Issued(p, w.tasks[r].reqId - 1))
    && (forall r, s :: 0 <= r < s < |w.tasks| ==> w.tasks[r].reqId != w.tasks[s].reqId)
  }

  /** An accepted request has its registration. */
  ghost predicate Registered(w: R.World, id: nat) {
    exists r :: 0 <= r < |w.tasks| && w.tasks[r].reqId == id + 1
  }

  /** What was answered under the id is still with native code or has been polled, once. */
  ghost predicate Accounted(w: R.World, p: P.World, id: nat) {
    && (Issued(p, id) ==> Registered(w, id))
    && Waiting(w, id + 1) + Bit(Polled(p, id)) <= R.AnswersUnder(w.answers, id + 1)
    && (!w.abandoned ==> Waiting(w, id + 1) + Bit(Polled(p, id)) == R.AnswersUnder(w.answers, id + 1))
  }

  ghost predicate Inv(w: R.World, p: P.World) {
    R.Once(w) && P.Inv(p) && IdsMatch(w, p) && forall id: nat :: Accounted(w, p, id)
  }

  // ---------------------------------------------------------------------------------------------
  // Native steps

  lemma {:induction false} NoTaskNoAnswer(answers: seq<R.Answer>, tasks: seq<R.Task>, reqId: nat)
    requires forall r :: 0 <= r < |tasks| ==> tasks[r].reqId != reqId
    requires forall k :: 0 <= k < |answers| ==>
      answers[k].entry < |tasks| && answers[k].completion.reqId == tasks[answers[k].entry].reqId
    ensures R.AnswersUnder(answers, reqId) == 0
  {
    if answers != [] { NoTaskNoAnswer(answers[..|answers| - 1], tasks, reqId); }
  }

  /** With distinct ids nothing is answered twice under one, and only a registered id is answered. */
  lemma AnsweredAtMostOnce(w: R.World, p: P.World, id: nat)
    requires R.Once(w) && IdsMatch(w, p)
    ensures R.AnswersUnder(w.answers, id + 1) <= 1
    ensures R.AnswersUnder(w.answers, id + 1) == 1 ==> Issued(p, id)
  {
    if r :| 0 <= r < |w.tasks| && w.tasks[r].reqId == id + 1 {
      R.OnlyHolderAnswers(w.answers, w.tasks, r);
      assert R.Accounted(w, r);
    } else {
      NoTaskNoAnswer(w.answers, w.tasks, id + 1);
    }
  }

  lemma AnswersUnderGrow(answers: seq<R.Answer>, a: R.Answer, reqId: nat)
    ensures R.AnswersUnder(answers + [a], reqId) == R.AnswersUnder(answers, reqId) + Bit(a.completion.reqId == reqId)
  {
    assert (answers + [a])[..|answers|] == answers;
  }

  /** What a native step does to the balance of an id: an answer enters the queue, a delivery leaves, a dropped queue loses. */
  ghost predicate Balanced(w: R.World, step: R.Step, w': R.World, reqId: nat) {
    var out := Bit(Delivers(w, step) && Delivered(w, step).reqId == reqId);
    && Waiting(w', reqId) + out + R.AnswersUnder(w.answers, reqId) <= Waiting(w, reqId) + R.AnswersUnder(w'.answers, reqId)
    && (!step.DropQueued? ==>
          Waiting(w', reqId) + out + R.AnswersUnder(w.answers, reqId) == Waiting(w, reqId) + R.AnswersUnder(w'.answers, reqId))
  }

  lemma AnswerIsBalanced(w: R.World, step: R.Step, reqId: nat)
    requires R.Once(w) && R.Enabled(w, step) && (step.PushResult? || step.DrainOne?)
    ensures Balanced(w, step, R.Do(w, step), reqId)
  {
    var a := match step
      case PushResult(t) => R.Answer(w.tasks[t].phase.entry, w.tasks[t].phase.result)
      case DrainOne(id, message) => R.Answer(w.pending[id], ErrorOf(id, KT_ERR_SHUTDOWN, message));
    if step.PushResult? { R.PushKeepsOnce(w, step.t); } else { R.DrainKeepsOnce(w, step.reqId, step.message); }
    var w' := R.Do(w, step);
    assert w'.answers == w.answers + [a] && w'.queue == w.queue + [a.completion] && w'.writing == w.writing;
    AnswersUnderGrow(w.answers, a, reqId);
    CountJoins(w.queue, [a.completion], reqId);
    CountOne(a.completion, reqId);
  }

  lemma EventIsBalanced(w: R.World, e: Pending, reqId: nat)
    requires R.Enabled(w, R.PushEvent(e)) && reqId > 0
    ensures Balanced(w, R.PushEvent(e), R.Do(w, R.PushEvent(e)), reqId)
  {
    CountJoins(w.queue, [e], reqId);
    CountOne(e, reqId);
  }

  lemma PollIsBalanced(w: R.World, take: nat, reqId: nat)
    requires R.Enabled(w, R.PollDrain(take))
    ensures Balanced(w, R.PollDrain(take), R.Do(w, R.PollDrain(take)), reqId)
  {
    CountJoins(w.queue[..take], w.queue[take..], reqId);
    assert w.queue[..take] + w.queue[take..] == w.queue;
    CountJoins(w.writing, w.queue[..take], reqId);
  }

  lemma WriteIsBalanced(w: R.World, i: nat, reqId: nat)
    requires R.Enabled(w, R.WriteOut(i)) && reqId > 0
    ensures Balanced(w, R.WriteOut(i), R.Do(w, R.WriteOut(i)), reqId)
  {
    var w' := R.Do(w, R.WriteOut(i));
    assert w'.writing == w.writing[..i] + w.writing[i + 1..] && w'.queue == w.queue && w'.answers == w.answers;
    CountWithout(w.writing, i, reqId);
  }

  lemma DropIsBalanced(w: R.World, reqId: nat)
    requires R.Enabled(w, R.DropQueued)
    ensures Balanced(w, R.DropQueued, R.Do(w, R.DropQueued), reqId)
  {
    var w' := R.Do(w, R.DropQueued);
    assert w'.queue == w.queue[1..] && w'.writing == w.writing && w'.answers == w.answers;
  }

  lemma OtherIsBalanced(w: R.World, step: R.Step, reqId: nat)
    requires R.Enabled(w, step) && !step.PushResult? && !step.DrainOne?
    requires !step.PushEvent? && !step.PollDrain? && !step.WriteOut? && !step.DropQueued?
    ensures Balanced(w, step, R.Do(w, step), reqId)
  {
    var w' := R.Do(w, step);
    assert w'.queue == w.queue && w'.writing == w.writing && w'.answers == w.answers;
  }

  lemma StepIsBalanced(w: R.World, step: R.Step, reqId: nat)
    requires R.Once(w) && R.Enabled(w, step) && reqId > 0
    ensures Balanced(w, step, R.Do(w, step), reqId)
  {
    match step
    case PushResult(_) | DrainOne(_, _) => AnswerIsBalanced(w, step, reqId);
    case PushEvent(e) => EventIsBalanced(w, e, reqId);
    case PollDrain(take) => PollIsBalanced(w, take, reqId);
    case WriteOut(i) => WriteIsBalanced(w, i, reqId);
    case DropQueued => DropIsBalanced(w, reqId);
    case _ => OtherIsBalanced(w, step, reqId);
  }

  /** Only an accepted registration adds a task, and no step changes a task's id. */
  lemma TasksKeepIds(w: R.World, step: R.Step)
    requires R.Enabled(w, step)
    ensures var w' := R.Do(w, step);
            && |w'.tasks| == |w.tasks| + Bit(Accepts(w, step))
            && (forall r :: 0 <= r < |w.tasks| ==> w'.tasks[r].reqId == w.tasks[r].reqId)
            && (Accepts(w, step) ==> w'.tasks[|w.tasks|].reqId == step.reqId)
  {
    if R.SetsPhase(step) {
      R.OwnStepSetsPhase(w, step);
    } else {
      R.OtherPhasesStay(w, step);
    }
  }

  lemma AbandonedStays(w: R.World, step: R.Step)
    requires R.Enabled(w, step)
    ensures w.abandoned || step.DropQueued? ==> R.Do(w, step).abandoned
  {
  }

  // ---------------------------------------------------------------------------------------------
  // Pump steps

  lemma CallersKeepIssued(p: P.World, move: P.Step, id: nat)
    requires P.Enabled(p, move) && P.CallerStep(move) && !move.NativeAccepts?
    ensures P.DoCaller(p, move).inflight == p.inflight && (Issued(P.DoCaller(p, move), id) <==> Issued(p, id))
  {
  }

  /** A pump step other than these two changes neither what is in flight nor who has been accepted. */
  lemma OtherMovesKeepIssued(p: P.World, move: P.Step, id: nat)
    requires P.Enabled(p, move) && !move.NativeAccepts? && !move.Poll?
    ensures P.Do(p, move).inflight == p.inflight && (Issued(P.Do(p, move), id) <==> Issued(p, id))
  {
    if P.CallerStep(move) {
      CallersKeepIssued(p, move, id);
    }
  }

  lemma AcceptingIssues(p: P.World, at: nat, id: nat)
    requires P.Enabled(p, P.NativeAccepts(at))
    ensures var p' := P.Do(p, P.NativeAccepts(at));
            && p'.inflight == p.inflight + {at} && !Issued(p, at) && Issued(p', at)
            && (id != at ==> (Issued(p', id) <==> Issued(p, id)))
  {
  }

  /** What the move of a joint step does to one id. */
  ghost predicate Moved(w: R.World, step: R.Step, p: P.World, p': P.World, id: nat) {
    && (Issued(p', id) <==> Issued(p, id) || (Accepts(w, step) && step.reqId == id + 1))
    && (id in p'.inflight <==>
          (id in p.inflight || (Accepts(w, step) && step.reqId == id + 1))
          && !(Delivers(w, step) && Delivered(w, step).reqId == id + 1))
    && (Accepts(w, step) && step.reqId == id + 1 ==> !Issued(p, id))
  }

  lemma MoveOf(w: R.World, step: R.Step, p: P.World, move: Option<P.Step>, p': P.World, id: nat)
    requires R.Enabled(w, step) && Matches(w, step, p, move, p')
    ensures Moved(w, step, p, p', id)
  {
    if !Delivers(w, step) && move.Some? {
      if move.value.NativeAccepts? {
        AcceptingIssues(p, move.value.id, id);
      } else {
        OtherMovesKeepIssued(p, move.value, id);
      }
    }
  }

  // ---------------------------------------------------------------------------------------------
  // The joint invariant

  /** The record native code writes out is one the pump is waiting for. */
  lemma DeliveryIsExpected(w: R.World, step: R.Step, p: P.World)
    requires Inv(w, p) && R.Enabled(w, step) && Delivers(w, step)
    ensures Delivered(w, step).reqId - 1 in p.inflight
  {
    var id := Delivered(w, step).reqId - 1;
    assert Accounted(w, p, id);
    CountWithout(w.writing, step.i, id + 1);
    AnsweredAtMostOnce(w, p, id);
  }

  lemma RegisteredStays(w: R.World, step: R.Step, id: nat)
    requires R.Enabled(w, step) && (Registered(w, id) || (Accepts(w, step) && step.reqId == id + 1))
    ensures Registered(R.Do(w, step), id)
  {
    TasksKeepIds(w, step);
    if r :| 0 <= r < |w.tasks| && w.tasks[r].reqId == id + 1 {
      assert R.Do(w, step).tasks[r].reqId == id + 1;
    } else {
      assert R.Do(w, step).tasks[|w.tasks|].reqId == id + 1;
    }
  }

  lemma StepKeepsAccounted(w: R.World, step: R.Step, p: P.World, move: Option<P.Step>, p': P.World, id: nat)
    requires Inv(w, p) && R.Enabled(w, step) && Matches(w, step, p, move, p')
    ensures Accounted(R.Do(w, step), p', id)
  {
    var w' := R.Do(w, step);
    assert Accounted(w, p, id);
    StepIsBalanced(w, step, id + 1);
    AbandonedStays(w, step);
    MoveOf(w, step, p, move, p', id);
    if Issued(p', id) { RegisteredStays(w, step, id); }
    if Delivers(w, step) && Delivered(w, step).reqId == id + 1 {
      DeliveryIsExpected(w, step, p);
      AnsweredAtMostOnce(w, p, id);
      CountWithout(w.writing, step.i, id + 1);
    }
  }

  lemma StepKeepsIds(w: R.World, step: R.Step, p: P.World, move: Option<P.Step>, p': P.World)
    requires IdsMatch(w, p) && R.Enabled(w, step) && Matches(w, step, p, move, p')
    ensures IdsMatch(R.Do(w, step), p')
  {
    var w' := R.Do(w, step);
    TasksKeepIds(w, step);
    forall r | 0 <= r < |w'.tasks| ensures w'.tasks[r].reqId > 0 && Issued(p', w'.tasks[r].reqId - 1) {
      MoveOf(w, step, p, move, p', if r < |w.tasks| then w.tasks[r].reqId - 1 else step.reqId - 1);
    }
    if Accepts(w, step) { MoveOf(w, step, p, move, p', step.reqId - 1); }
  }

  /** A joint step is a step of the pump's own system, or none. */
  lemma MoveIsLegal(w: R.World, step: R.Step, p: P.World, move: Option<P.Step>, p': P.World)
    requires Inv(w, p) && R.Enabled(w, step) && Matches(w, step, p, move, p')
    ensures move.Some? ==> P.Enabled(p, move.value) && p' == P.Do(p, move.value)
    ensures move.None? ==> p' == p
  {
    if Delivers(w, step) { DeliveryIsExpected(w, step, p); }
  }

  lemma StepKeepsInv(w: R.World, step: R.Step, p: P.World, move: Option<P.Step>, p': P.World)
    requires Inv(w, p) && R.Enabled(w, step) && Matches(w, step, p, move, p')
    ensures Inv(R.Do(w, step), p')
  {
    R.StepKeepsOnce(w, step);
    MoveIsLegal(w, step, p, move, p');
    if move.Some? { P.StepKeepsInv(p, move.value); }
    StepKeepsIds(w, step, p, move, p');
    forall id: nat ensures Accounted(R.Do(w, step), p', id) {
      StepKeepsAccounted(w, step, p, move, p', id);
    }
  }

  lemma StartIsSound(w: R.World, p: P.World)
    requires w == R.NEW_WORLD && p == P.NEW_WORLD
    ensures Inv(w, p)
  {
  }

  /**
   Over every joint run the pump keeps all its guarantees, and each id is accounted for on both sides,
   without any assumption about what native code delivers.
   */
  lemma {:induction false} RunsAreSafe(
      run: seq<R.World>, steps: seq<R.Step>, pumps: seq<P.World>, moves: seq<Option<P.Step>>, k: nat)
    requires IsJointRun(run, steps, pumps, moves) && k < |run|
    ensures Inv(run[k], pumps[k])
  {
    if k == 0 {
      StartIsSound(run[0], pumps[0]);
    } else {
      RunsAreSafe(run, steps, pumps, moves, k - 1);
      assert Paired(run, steps, pumps, moves, k - 1) && R.Linked(run, steps, k - 1);
      StepKeepsInv(run[k - 1], steps[k - 1], pumps[k - 1], moves[k - 1], pumps[k]);
    }
  }

  /** Every completion that reaches the pump is one it has in flight: the joint run is a run of the pump's own system. */
  lemma PumpStepsAreLegal(
      run: seq<R.World>, steps: seq<R.Step>, pumps: seq<P.World>, moves: seq<Option<P.Step>>, k: nat)
    requires IsJointRun(run, steps, pumps, moves) && k < |steps|
    ensures moves[k].Some? ==> P.Enabled(pumps[k], moves[k].value) && pumps[k + 1] == P.Do(pumps[k], moves[k].value)
    ensures moves[k].None? ==> pumps[k + 1] == pumps[k]
  {
    RunsAreSafe(run, steps, pumps, moves, k);
    assert Paired(run, steps, pumps, moves, k);
    MoveIsLegal(run[k], steps[k], pumps[k], moves[k], pumps[k + 1]);
  }

  /**
   Exactly the accepted requests the pump has in flight are still owed a completion: not answered yet, or
   answered and on the way. An id not in flight was never accepted, or its one completion has been polled.
   */
  lemma InFlightIff(
      run: seq<R.World>, steps: seq<R.Step>, pumps: seq<P.World>, moves: seq<Option<P.Step>>, k: nat, id: nat)
    requires IsJointRun(run, steps, pumps, moves) && k < |run| && !run[k].abandoned
    ensures id in pumps[k].inflight <==>
      Issued(pumps[k], id) && (R.AnswersUnder(run[k].answers, id + 1) == 0 || Waiting(run[k], id + 1) == 1)
    ensures Waiting(run[k], id + 1) <= R.AnswersUnder(run[k].answers, id + 1) <= 1
  {
    RunsAreSafe(run, steps, pumps, moves, k);
    assert Accounted(run[k], pumps[k], id);
    AnsweredAtMostOnce(run[k], pumps[k], id);
    if id in pumps[k].inflight {
      assert P.HandleAccounted(pumps[k], id);
    }
  }
}
