/**
 Payload slabs under concurrency: every poller's scratch block in one memory, its `in_poll` flag and the
 records of its last batch, with polls of any poller from any thread at any time.

 The queue part of the world is `Queue.World`. A poll's entry does not assume that the poller is idle:
 the flag decides, and that it decides rightly is proved.
 */
module Slab {
  import opened Bridge
  import Q = Queue

  /** Where a payload lies; a record with an empty payload has the null pointer. */
  datatype Pointer = Null | At(block: nat, offset: nat)

  datatype Record = Record(
    reqId: nat, kind: KtKind, status: int, payload: Pointer, len: nat, aux0: nat, aux1: nat)

  /**
   One poller. While `writing`, `todo` is the part of the drained batch without a record yet. `records`
   are the last batch's records so far and `batch`, which is history, the completions they stand for.
   */
  datatype Slab = Slab(
    block: nat, used: nat, inPoll: bool, writing: bool, todo: seq<Pending>, batch: seq<Pending>, records: seq<Record>)

  datatype World = World(q: Q.World, mem: map<nat, seq<byte>>, slabs: map<nat, Slab>)

  /**
   `Shared` is a step of the queue itself. `Other` is everybody else allocating, writing or freeing
   memory that is no slab.
   */
  datatype Step =
    | Shared(step: Q.Step)
    | Create(i: nat, block: nat)
    | Call(i: nat, cap: nat, outNull: bool, timeoutMillis: int)
    | BeginWrite(i: nat, spare: nat)
    | WriteRecord(i: nat)
    | Return(i: nat)
    | Other(block: nat, contents: Option<seq<byte>>)

  const NEW_WORLD: World := World(Q.NEW_WORLD, map[], map[])

  const SLAB_MINIMUM: nat := 64 * 1024

  predicate IsPoller(w: World, i: nat) {
    i in w.slabs && i in w.q.pollers && w.slabs[i].block in w.mem
  }

  predicate Enabled(w: World, step: Step) {
    match step
    case Shared(s) => !s.NewPoller? && !s.Enter? && !s.Finish? && Q.Enabled(w.q, s)
    case Create(i, block) => i !in w.slabs && i !in w.q.pollers && block !in w.mem
    case Call(i, _, _, _) => IsPoller(w, i)
    case BeginWrite(i, f) =>
      && IsPoller(w, i) && f !in w.mem && !w.slabs[i].writing
      && w.q.pollers[i].phase.Writing? && w.q.pollers[i].phase.batch != []
    case WriteRecord(i) =>
      && IsPoller(w, i) && w.slabs[i].writing && w.slabs[i].todo != []
      && w.slabs[i].used + |w.slabs[i].todo[0].payload| <= |w.mem[w.slabs[i].block]|
    case Return(i) =>
      && IsPoller(w, i) && w.q.pollers[i].phase.Writing?
      && (w.q.pollers[i].phase.batch == [] || (w.slabs[i].writing && w.slabs[i].todo == []))
    case Other(block, _) => forall i :: i in w.slabs ==> w.slabs[i].block != block
  }

  /** The checks before the lock; `None` is an accepted poll. */
  function CallResult(w: World, i: nat, cap: nat, outNull: bool): Option<Result<nat>>
    requires IsPoller(w, i)
  {
    if cap == 0 then Some(Ok(0))
    else if outNull || w.slabs[i].inPoll then Some(Err(InvalidArgument))
    else None
  }

  /** The slab's contents before a batch of `total` bytes: grown once, old bytes kept, never shrunk. */
  function Grown(contents: seq<byte>, total: nat): (r: seq<byte>)
    ensures |r| >= total && |r| >= |contents|
  {
    if |contents| >= total then contents
    else contents + seq(Max(Q.DoubleUntil(total, 1), SLAB_MINIMUM) - |contents|, _ => 0 as byte)
  }

  /** `put`: the next free range, and no other byte. */
  function Spliced(contents: seq<byte>, start: nat, payload: seq<byte>): seq<byte>
    requires start + |payload| <= |contents|
  {
    contents[..start] + payload + contents[start + |payload|..]
  }

  function RecordOf(p: Pending, block: nat, start: nat): Record {
    Record(p.reqId, p.kind, p.status, if p.payload == [] then Null else At(block, start), |p.payload|, p.aux0, p.aux1)
  }

  function Entering(w: World, i: nat, cap: nat, timeoutMillis: int): World
    requires IsPoller(w, i)
  {
    w.(q := w.q.(pollers := w.q.pollers[i := Q.Poller(Q.Entered, cap, timeoutMillis)]),
       slabs := w.slabs[i := w.slabs[i].(inPoll := true)])
  }

  function Beginning(w: World, i: nat, f: nat): World
    requires Enabled(w, BeginWrite(i, f))
  {
    var s, drained := w.slabs[i], w.q.pollers[i].phase.batch;
    var moves := |w.mem[s.block]| < Q.TotalLen(drained);
    var block := if moves then f else s.block;
    w.(mem := if moves then (w.mem - {s.block})[f := Grown(w.mem[s.block], Q.TotalLen(drained))] else w.mem,
       slabs := w.slabs[i := s.(block := block, used := 0, writing := true, todo := drained, batch := [], records := [])])
  }

  function Writing(w: World, i: nat): World
    requires Enabled(w, WriteRecord(i))
  {
    var s := w.slabs[i];
    var p := s.todo[0];
    w.(mem := w.mem[s.block := Spliced(w.mem[s.block], s.used, p.payload)],
       slabs := w.slabs[i := s.(used := s.used + |p.payload|, todo := s.todo[1..], batch := s.batch + [p],
                                records := s.records + [RecordOf(p, s.block, s.used)])])
  }

  function Do(w: World, step: Step): World
    requires Enabled(w, step)
  {
    match step
    case Shared(s) => w.(q := Q.Do(w.q, s))
    case Create(i, block) =>
      w.(q := Q.Do(w.q, Q.NewPoller(i)), mem := w.mem[block := []],
         slabs := w.slabs[i := Slab(block, 0, false, false, [], [], [])])
    case Call(i, cap, outNull, timeoutMillis) =>
      if CallResult(w, i, cap, outNull).Some? then w else Entering(w, i, cap, timeoutMillis)
    case BeginWrite(i, f) => Beginning(w, i, f)
    case WriteRecord(i) => Writing(w, i)
    case Return(i) =>
      w.(q := Q.Do(w.q, Q.Finish(i)), slabs := w.slabs[i := w.slabs[i].(inPoll := false, writing := false)])
    case Other(block, contents) =>
      w.(mem := if contents.Some? then w.mem[block := contents.value] else w.mem - {block})
  }

  ghost predicate Linked(run: seq<World>, steps: seq<Step>, k: nat)
    requires k < |steps| && |run| == |steps| + 1
  {
    Enabled(run[k], steps[k]) && run[k + 1] == Do(run[k], steps[k])
  }

  ghost predicate IsRun(run: seq<World>, steps: seq<Step>) {
    |run| == |steps| + 1 && run[0] == NEW_WORLD && forall k: nat :: k < |steps| ==> Linked(run, steps, k)
  }

  // ---------------------------------------------------------------------------------------------
  // What a batch's records denote

  /** The record says what its completion said, and its pointer and length denote the payload. */
  predicate Denotes(r: Record, p: Pending, block: nat, contents: seq<byte>, used: nat) {
    && r.reqId == p.reqId && r.kind == p.kind && r.status == p.status && r.aux0 == p.aux0 && r.aux1 == p.aux1
    && r.len == |p.payload| && (r.payload.Null? <==> p.payload == [])
    && (r.payload.At? ==>
          && r.payload.block == block && r.payload.offset + r.len <= used <= |contents|
          && contents[r.payload.offset..r.payload.offset + r.len] == p.payload)
  }

  ghost predicate Laid(records: seq<Record>, batch: seq<Pending>, block: nat, contents: seq<byte>, used: nat) {
    && |records| == |batch| && used <= |contents|
    && (forall k :: 0 <= k < |records| ==> Denotes(records[k], batch[k], block, contents, used))
    && (forall j, k :: 0 <= j < k < |records| && records[j].payload.At? && records[k].payload.At? ==>
          records[j].payload.offset + records[j].len <= records[k].payload.offset)
  }

  ghost predicate SlabSound(s: Slab, contents: seq<byte>) {
    && Laid(s.records, s.batch, s.block, contents, s.used)
    && (s.writing ==> s.used + Q.TotalLen(s.todo) <= |contents|)
  }

  /** The flag is exactly "a poll is inside", and writing works through the drained batch. */
  ghost predicate FlagSound(s: Slab, phase: Q.Phase) {
    && (s.inPoll <==> phase != Q.Idle)
    && (s.writing ==> phase.Writing? && phase.batch == s.batch + s.todo && phase.batch != [])
  }

  ghost predicate BlocksSeparate(w: World) {
    && w.slabs.Keys == w.q.pollers.Keys
    && (forall i :: i in w.slabs ==> w.slabs[i].block in w.mem)
    && (forall i, j :: i in w.slabs && j in w.slabs && i != j ==> w.slabs[i].block != w.slabs[j].block)
  }

  ghost predicate PollerSound(w: World, i: nat) {
    IsPoller(w, i) && SlabSound(w.slabs[i], w.mem[w.slabs[i].block]) && FlagSound(w.slabs[i], w.q.pollers[i].phase)
  }

  ghost predicate Inv(w: World) {
    BlocksSeparate(w) && Q.Inv(w.q) && forall i :: i in w.slabs ==> PollerSound(w, i)
  }

  lemma TotalOfFirst(ps: seq<Pending>)
    requires ps != []
    ensures Q.TotalLen(ps) == |ps[0].payload| + Q.TotalLen(ps[1..])
    decreases |ps|
  {
    if |ps| == 1 {
      assert ps[..0] == [] && ps[1..] == [];
    } else {
      var shorter := ps[..|ps| - 1];
      TotalOfFirst(shorter);
      assert ps[1..][..|ps| - 2] == shorter[1..];
    }
  }

  /** Writing the next payload keeps every record of the batch and adds one. */
  lemma LaidGrows(records: seq<Record>, batch: seq<Pending>, block: nat, contents: seq<byte>, used: nat, p: Pending)
    requires Laid(records, batch, block, contents, used) && used + |p.payload| <= |contents|
    ensures Laid(records + [RecordOf(p, block, used)], batch + [p], block, Spliced(contents, used, p.payload), used + |p.payload|)
  {
    var after := Spliced(contents, used, p.payload);
    forall k | 0 <= k < |records| ensures Denotes(records[k], batch[k], block, after, used + |p.payload|) {
      if records[k].payload.At? {
        var o := records[k].payload.offset;
        assert after[o..o + records[k].len] == contents[o..o + records[k].len];
      }
    }
    assert after[used..used + |p.payload|] == p.payload;
  }

  // ---------------------------------------------------------------------------------------------
  // Steps

  /** The one poller whose slab a step may write. */
  predicate Writes(step: Step, i: nat) {
    (step.BeginWrite? && step.i == i) || (step.WriteRecord? && step.i == i)
  }

  /** No step but its own writing touches a poller's block, records or bytes. */
  lemma OthersKeepOut(w: World, step: Step, i: nat)
    requires BlocksSeparate(w) && Enabled(w, step) && i in w.slabs && !Writes(step, i)
    ensures var w' := Do(w, step);
            && i in w'.slabs && w'.slabs[i].block == w.slabs[i].block && w'.slabs[i].block in w'.mem
            && w'.mem[w.slabs[i].block] == w.mem[w.slabs[i].block]
            && w'.slabs[i] == w.slabs[i].(inPoll := w'.slabs[i].inPoll, writing := w'.slabs[i].writing)
  {
  }

  lemma BeginKeepsSeparate(w: World, i: nat, f: nat)
    requires BlocksSeparate(w) && Enabled(w, BeginWrite(i, f))
    ensures BlocksSeparate(Beginning(w, i, f))
  {
  }

  lemma CreateKeepsSeparate(w: World, i: nat, block: nat)
    requires BlocksSeparate(w) && Enabled(w, Create(i, block))
    ensures BlocksSeparate(Do(w, Create(i, block)))
  {
  }

  lemma FlagStepKeepsSeparate(w: World, step: Step)
    requires BlocksSeparate(w) && Enabled(w, step)
    requires step.Call? || step.WriteRecord? || step.Return? || step.Other?
    ensures BlocksSeparate(Do(w, step))
  {
  }

  lemma QueueKeepsPollers(q: Q.World, s: Q.Step)
    requires Q.Enabled(q, s) && !s.NewPoller?
    ensures Q.Do(q, s).pollers.Keys == q.pollers.Keys
  {
  }

  lemma StepKeepsSeparate(w: World, step: Step)
    requires BlocksSeparate(w) && Enabled(w, step)
    ensures BlocksSeparate(Do(w, step))
  {
    match step
    case Shared(s) => QueueKeepsPollers(w.q, s);
    case BeginWrite(i, f) => BeginKeepsSeparate(w, i, f);
    case Create(i, block) => CreateKeepsSeparate(w, i, block);
    case _ => FlagStepKeepsSeparate(w, step);
  }

  /** A step of the queue only: a poller goes idle or starts only through its own call and return. */
  lemma QueueKeepsIdleness(q: Q.World, s: Q.Step, i: nat)
    requires Q.Enabled(q, s) && !s.NewPoller? && !s.Enter? && !s.Finish? && i in q.pollers
    ensures i in Q.Do(q, s).pollers
    ensures Q.Do(q, s).pollers[i].phase == Q.Idle <==> q.pollers[i].phase == Q.Idle
    ensures q.pollers[i].phase.Writing? ==> Q.Do(q, s).pollers[i].phase == q.pollers[i].phase
  {
  }

  lemma SharedKeepsPoller(w: World, s: Q.Step, i: nat)
    requires Enabled(w, Shared(s)) && PollerSound(w, i)
    ensures PollerSound(Do(w, Shared(s)), i)
  {
    QueueKeepsIdleness(w.q, s, i);
  }

  lemma BeginKeepsPoller(w: World, i: nat, f: nat)
    requires Enabled(w, BeginWrite(i, f)) && PollerSound(w, i)
    ensures PollerSound(Do(w, BeginWrite(i, f)), i)
  {
  }

  lemma WriteKeepsPoller(w: World, i: nat)
    requires Enabled(w, WriteRecord(i)) && PollerSound(w, i)
    ensures PollerSound(Do(w, WriteRecord(i)), i)
  {
    var s := w.slabs[i];
    LaidGrows(s.records, s.batch, s.block, w.mem[s.block], s.used, s.todo[0]);
    TotalOfFirst(s.todo);
    assert s.batch + s.todo == (s.batch + [s.todo[0]]) + s.todo[1..];
  }

  lemma EdgeKeepsPoller(w: World, step: Step, i: nat)
    requires BlocksSeparate(w) && Enabled(w, step) && PollerSound(w, i)
    requires step.Create? || step.Call? || step.Return? || step.Other?
    ensures PollerSound(Do(w, step), i)
  {
    OthersKeepOut(w, step, i);
  }

  lemma StepKeepsPoller(w: World, step: Step, i: nat)
    requires BlocksSeparate(w) && Enabled(w, step) && PollerSound(w, i)
    ensures PollerSound(Do(w, step), i)
  {
    match step
    case Shared(s) => SharedKeepsPoller(w, s, i);
    case BeginWrite(j, f) =>
      if i == j { BeginKeepsPoller(w, i, f); } else { OthersKeepOut(w, step, i); }
    case WriteRecord(j) =>
      if i == j { WriteKeepsPoller(w, i); } else { OthersKeepOut(w, step, i); }
    case _ => EdgeKeepsPoller(w, step, i);
  }

  /** The queue's own step that a step is, if it is one. */
  function QueueStep(w: World, step: Step): Option<Q.Step>
    requires Enabled(w, step)
  {
    match step
    case Shared(s) => Some(s)
    case Create(i, _) => Some(Q.NewPoller(i))
    case Call(i, cap, outNull, timeoutMillis) =>
      if cap > 0 && !outNull && !w.slabs[i].inPoll then Some(Q.Enter(i, cap, timeoutMillis)) else None
    case Return(i) => Some(Q.Finish(i))
    case _ => None
  }

  /** Seen from the queue every step is one of its own or none: an accepted poll finds its poller idle. */
  lemma QueuePartSteps(w: World, step: Step)
    requires Enabled(w, step) && forall i :: i in w.slabs ==> PollerSound(w, i)
    ensures match QueueStep(w, step)
            case None => Do(w, step).q == w.q
            case Some(s) => Q.Enabled(w.q, s) && Do(w, step).q == Q.Do(w.q, s)
  {
    if step.Call? { assert PollerSound(w, step.i); }
  }

  /** Whatever memory outside the slabs may become, it can become in one step. */
  lemma OtherMemoryIsArbitrary(w: World, block: nat, contents: Option<seq<byte>>)
    requires forall i :: i in w.slabs ==> w.slabs[i].block != block
    ensures Enabled(w, Other(block, contents))
    ensures var mem := Do(w, Other(block, contents)).mem;
            && (if contents.Some? then block in mem && mem[block] == contents.value else block !in mem)
            && forall b :: b != block ==> (b in mem <==> b in w.mem) && (b in mem ==> mem[b] == w.mem[b])
  {
  }

  lemma NewcomerIsSound(w: World, step: Step, i: nat)
    requires Enabled(w, step) && i !in w.slabs && i in Do(w, step).slabs
    ensures PollerSound(Do(w, step), i)
  {
  }

  lemma StepKeepsInv(w: World, step: Step)
    requires Inv(w) && Enabled(w, step)
    ensures Inv(Do(w, step))
  {
    var w' := Do(w, step);
    StepKeepsSeparate(w, step);
    QueuePartSteps(w, step);
    if QueueStep(w, step).Some? { Q.StepKeepsInv(w.q, QueueStep(w, step).value); }
    forall i | i in w'.slabs ensures PollerSound(w', i) {
      if i in w.slabs { StepKeepsPoller(w, step, i); } else { NewcomerIsSound(w, step, i); }
    }
  }

  lemma NothingIsSeparate(q: Q.World)
    requires q.pollers == map[]
    ensures BlocksSeparate(World(q, map[], map[]))
  {
  }

  lemma StartIsSafe(w: World)
    requires Q.Inv(w.q) && w.q.pollers == map[] && w.mem == map[] && w.slabs == map[]
    ensures Inv(w)
  {
    NothingIsSeparate(w.q);
  }

  lemma RunStepKeepsInv(run: seq<World>, steps: seq<Step>, k: nat)
    requires IsRun(run, steps) && k < |steps| && Inv(run[k])
    ensures Inv(run[k + 1])
  {
    assert Linked(run, steps, k);
    StepKeepsInv(run[k], steps[k]);
  }

  /**
   Over every run of any number of pollers, polled from any threads: the flag says exactly whether a poll
   is inside, slabs never share memory, every record of the current or last batch denotes its own
   payload, and the queue keeps its own guarantees.
   */
  lemma {:induction false} RunsAreSafe(run: seq<World>, steps: seq<Step>, k: nat)
    requires IsRun(run, steps) && k < |run|
    ensures Inv(run[k])
  {
    if k == 0 {
      Q.StartIsSafe();
      StartIsSafe(run[0]);
    } else {
      RunsAreSafe(run, steps, k - 1);
      RunStepKeepsInv(run, steps, k - 1);
    }
  }

  /** The one reservation is enough: no record of a batch ever finds its slab too small. */
  lemma RoomForEveryRecord(run: seq<World>, steps: seq<Step>, k: nat, i: nat)
    requires IsRun(run, steps) && k < |run| && i in run[k].slabs && run[k].slabs[i].writing && run[k].slabs[i].todo != []
    ensures Enabled(run[k], WriteRecord(i))
  {
    RunsAreSafe(run, steps, k);
    assert PollerSound(run[k], i);
    TotalOfFirst(run[k].slabs[i].todo);
  }

  // ---------------------------------------------------------------------------------------------
  // A drained batch is written out

  /** The steps a poll takes once it has left the queue: reserve, one record each, return. */
  function StepsFor(batch: seq<Pending>): nat {
    if batch == [] then 1 else |batch| + 2
  }

  function StepsLeft(w: World, i: nat): nat {
    if !IsPoller(w, i) || !w.q.pollers[i].phase.Writing? then 0
    else if w.slabs[i].writing then |w.slabs[i].todo| + 1
    else StepsFor(w.q.pollers[i].phase.batch)
  }

  predicate OwnStep(step: Step, i: nat) {
    Writes(step, i) || step == Return(i)
  }

  /** The batch a step makes poller `i` leave the queue with. */
  function Drained(before: World, after: World, i: nat): Option<seq<Pending>> {
    if IsPoller(before, i) && IsPoller(after, i) && !before.q.pollers[i].phase.Writing? && after.q.pollers[i].phase.Writing?
    then Some(after.q.pollers[i].phase.batch)
    else None
  }

  lemma OwnStepMovesOn(w: World, step: Step, i: nat)
    requires Inv(w) && Enabled(w, step) && OwnStep(step, i)
    ensures StepsLeft(Do(w, step), i) + 1 == StepsLeft(w, i) && Drained(w, Do(w, step), i) == None
  {
    assert PollerSound(w, i);
    if step.Return? && w.slabs[i].writing {
      assert w.slabs[i].batch + [] == w.slabs[i].batch;
    }
  }

  lemma OthersOnlyDrain(w: World, step: Step, i: nat)
    requires Inv(w) && Enabled(w, step) && !OwnStep(step, i)
    ensures var batch := Drained(w, Do(w, step), i);
            StepsLeft(Do(w, step), i) == if batch.Some? then StepsFor(batch.value) else StepsLeft(w, i)
  {
    if i in w.slabs {
      assert PollerSound(w, i);
      OthersKeepOut(w, step, i);
      if step.Shared? { QueueKeepsIdleness(w.q, step.step, i); }
    }
  }

  function Due(before: World, after: World, i: nat): nat {
    var batch := Drained(before, after, i);
    if batch.Some? then StepsFor(batch.value) else 0
  }

  lemma StepIsDue(w: World, step: Step, i: nat)
    requires Inv(w) && Enabled(w, step)
    ensures StepsLeft(Do(w, step), i) + (if OwnStep(step, i) then 1 else 0) == StepsLeft(w, i) + Due(w, Do(w, step), i)
  {
    if OwnStep(step, i) {
      OwnStepMovesOn(w, step, i);
    } else {
      OthersOnlyDrain(w, step, i);
    }
  }

  ghost function OwnSteps(steps: seq<Step>, i: nat): nat {
    if steps == [] then 0 else OwnSteps(steps[..|steps| - 1], i) + if OwnStep(steps[|steps| - 1], i) then 1 else 0
  }

  ghost function StepsDue(run: seq<World>, k: nat, i: nat): nat
    requires k < |run|
  {
    if k == 0 then 0 else StepsDue(run, k - 1, i) + Due(run[k - 1], run[k], i)
  }

  lemma RunStepIsDue(run: seq<World>, steps: seq<Step>, k: nat, i: nat)
    requires IsRun(run, steps) && k < |steps|
    ensures StepsLeft(run[k + 1], i) + (if OwnStep(steps[k], i) then 1 else 0) == StepsLeft(run[k], i) + Due(run[k], run[k + 1], i)
  {
    RunsAreSafe(run, steps, k);
    assert Linked(run, steps, k);
    StepIsDue(run[k], steps[k], i);
  }

  /** Over every run each drained batch costs its poll one reservation, one record a completion, and its return. */
  lemma {:induction false} BatchesAreWrittenOut(run: seq<World>, steps: seq<Step>, k: nat, i: nat)
    requires IsRun(run, steps) && k < |run|
    ensures OwnSteps(steps[..k], i) + StepsLeft(run[k], i) == StepsDue(run, k, i)
  {
    if k > 0 {
      BatchesAreWrittenOut(run, steps, k - 1, i);
      assert steps[..k][..k - 1] == steps[..k - 1];
      RunStepIsDue(run, steps, k - 1, i);
    }
  }

  /** And none of these steps can be refused it. */
  lemma WriterCanGoOn(w: World, i: nat, spare: nat) returns (step: Step)
    requires Inv(w) && i in w.slabs && w.q.pollers[i].phase.Writing? && spare !in w.mem
    ensures Enabled(w, step) && OwnStep(step, i)
  {
    assert PollerSound(w, i);
    var s := w.slabs[i];
    if s.writing && s.todo != [] {
      TotalOfFirst(s.todo);
      step := WriteRecord(i);
    } else if s.writing || w.q.pollers[i].phase.batch == [] {
      step := Return(i);
    } else {
      step := BeginWrite(i, spare);
    }
  }

  // ---------------------------------------------------------------------------------------------
  // How long a batch lasts

  /** Until the poller's own next write begins, its records and the bytes they point to stay as they are. */
  lemma {:induction false} BatchLastsUntilOverwritten(run: seq<World>, steps: seq<Step>, j: nat, k: nat, i: nat)
    requires IsRun(run, steps) && j <= k < |run| && i in run[j].slabs
    requires forall m :: j <= m < k ==> !Writes(steps[m], i)
    ensures i in run[k].slabs && run[k].slabs[i].records == run[j].slabs[i].records
    ensures run[k].slabs[i].batch == run[j].slabs[i].batch && run[k].slabs[i].block == run[j].slabs[i].block
    ensures run[j].slabs[i].block in run[j].mem && run[j].slabs[i].block in run[k].mem
    ensures run[k].mem[run[j].slabs[i].block] == run[j].mem[run[j].slabs[i].block]
    decreases k
  {
    RunsAreSafe(run, steps, j);
    if j < k {
      BatchLastsUntilOverwritten(run, steps, j, k - 1, i);
      RunsAreSafe(run, steps, k - 1);
      assert Linked(run, steps, k - 1);
      OthersKeepOut(run[k - 1], steps[k - 1], i);
    }
  }

  predicate Accepted(w: World, step: Step, i: nat) {
    step.Call? && step.i == i && IsPoller(w, i) && CallResult(w, i, step.cap, step.outNull) == None
  }

  predicate IdleAt(w: World, i: nat) {
    i in w.slabs && i in w.q.pollers && w.q.pollers[i].phase == Q.Idle && !w.slabs[i].writing
  }

  lemma IdleStays(w: World, step: Step, i: nat)
    requires Enabled(w, step) && IdleAt(w, i) && !Accepted(w, step, i)
    ensures !Writes(step, i) && IdleAt(Do(w, step), i)
  {
    if step.Shared? { QueueKeepsIdleness(w.q, step.step, i); }
  }

  lemma {:induction false} IdleUntilAccepted(run: seq<World>, steps: seq<Step>, j: nat, k: nat, i: nat)
    requires IsRun(run, steps) && j <= k < |run| && IdleAt(run[j], i)
    requires forall m :: j <= m < k ==> !Accepted(run[m], steps[m], i)
    ensures IdleAt(run[k], i) && forall m :: j <= m < k ==> !Writes(steps[m], i)
    decreases k
  {
    if j < k {
      IdleUntilAccepted(run, steps, j, k - 1, i);
      assert Linked(run, steps, k - 1);
      IdleStays(run[k - 1], steps[k - 1], i);
    }
  }

  lemma ReturnLeavesTheBatch(w: World, i: nat)
    requires Inv(w) && Enabled(w, Return(i)) && w.q.pollers[i].phase.batch != []
    ensures var w' := Do(w, Return(i));
            && IdleAt(w', i) && w'.slabs[i].records == w.slabs[i].records
            && w'.slabs[i].batch == w.q.pollers[i].phase.batch
  {
    assert PollerSound(w, i);
    assert w.slabs[i].batch + [] == w.slabs[i].batch;
  }

  /**
   The caller's view: after a poll that wrote a batch has returned, its records stand for exactly the
   drained completions and every pointer and length denotes its payload, until that poller's next
   accepted poll, whatever other pollers, overlapping calls and other memory users do.
   */
  lemma BatchOutlivesThePoll(run: seq<World>, steps: seq<Step>, j: nat, k: nat, i: nat)
    requires IsRun(run, steps) && j < k < |run| && steps[j] == Return(i)
    requires IsPoller(run[j], i) && run[j].q.pollers[i].phase.Writing? && run[j].q.pollers[i].phase.batch != []
    requires forall m :: j < m < k ==> !Accepted(run[m], steps[m], i)
    ensures IsPoller(run[k], i) && run[k].slabs[i].records == run[j].slabs[i].records
    ensures var s := run[k].slabs[i];
            Laid(s.records, run[j].q.pollers[i].phase.batch, s.block, run[k].mem[s.block], s.used)
  {
    RunsAreSafe(run, steps, j);
    assert Linked(run, steps, j);
    ReturnLeavesTheBatch(run[j], i);
    IdleUntilAccepted(run, steps, j + 1, k, i);
    BatchLastsUntilOverwritten(run, steps, j + 1, k, i);
    RunsAreSafe(run, steps, k);
    assert PollerSound(run[k], i);
  }

  // ---------------------------------------------------------------------------------------------
  // Overlapping polls

  /** Accepted polls of poller `i` that have not returned. */
  ghost function Inside(run: seq<World>, steps: seq<Step>, k: nat, i: nat): int
    requires |run| == |steps| + 1 && k <= |steps|
  {
    if k == 0 then 0
    else
      var entered := if Accepted(run[k - 1], steps[k - 1], i) then 1 else 0;
      var left := if steps[k - 1] == Return(i) then 1 else 0;
      Inside(run, steps, k - 1, i) + entered - left
  }

  lemma FlagMoves(w: World, step: Step, i: nat)
    requires Inv(w) && Enabled(w, step)
    ensures var w' := Do(w, step);
            (if i in w'.slabs && w'.slabs[i].inPoll then 1 else 0)
            == (if i in w.slabs && w.slabs[i].inPoll then 1 else 0)
               + (if Accepted(w, step, i) then 1 else 0) - (if step == Return(i) then 1 else 0)
  {
    if step == Return(i) { assert PollerSound(w, i); }
  }

  lemma {:induction false} FlagCountsPollsInside(run: seq<World>, steps: seq<Step>, k: nat, i: nat)
    requires IsRun(run, steps) && k < |run|
    ensures Inside(run, steps, k, i) == if i in run[k].slabs && run[k].slabs[i].inPoll then 1 else 0
  {
    if k > 0 {
      FlagCountsPollsInside(run, steps, k - 1, i);
      RunsAreSafe(run, steps, k - 1);
      assert Linked(run, steps, k - 1);
      FlagMoves(run[k - 1], steps[k - 1], i);
    }
  }

  /**
   At any point of any run a poll is turned away exactly when it has nowhere to write or an accepted poll of
   the same poller has not returned, and then it changes nothing: not the flag, the slab, the queue or the
   memory. A poll for nothing is answered at once.
   */
  lemma OverlapIsRejectedIff(run: seq<World>, steps: seq<Step>, k: nat, i: nat, cap: nat, outNull: bool, timeoutMillis: int)
    requires IsRun(run, steps) && k < |run| && i in run[k].slabs
    ensures Enabled(run[k], Call(i, cap, outNull, timeoutMillis)) && 0 <= Inside(run, steps, k, i) <= 1
    ensures var turnedAway := outNull || Inside(run, steps, k, i) == 1;
            && (CallResult(run[k], i, cap, outNull) == Some(Err(InvalidArgument)) <==> cap > 0 && turnedAway)
            && (CallResult(run[k], i, cap, outNull) == Some(Ok(0)) <==> cap == 0)
            && (Do(run[k], Call(i, cap, outNull, timeoutMillis)) == run[k] <==> cap == 0 || turnedAway)
  {
    RunsAreSafe(run, steps, k);
    FlagCountsPollsInside(run, steps, k, i);
    assert PollerSound(run[k], i);
    if CallResult(run[k], i, cap, outNull) == None {
      assert Do(run[k], Call(i, cap, outNull, timeoutMillis)).slabs[i].inPoll;
    }
  }
}
