/**
 Handle ownership across the pending table, the queue and the handle table: a run of `Requests`, which is
 one runtime, in lockstep with a run of `Handles`, which is the one table all runtimes share. The first
 has one word per handle, the second slots and generations. Other runtimes are operations of the table
 that the request side only sees the removals of.
 */
module Ownership {
  import opened Bridge
  import H = Handles
  import R = Requests

  const WORDS: nat := 256 * H.KIND_UNIT

  /** The table kind of what an asynchronous creation made; a dropped completion removes by this kind. */
  function TableKind(kind: KtKind): nat {
    if kind == ClientConnected then H.KIND_CLIENT else H.KIND_EPHEMERAL
  }

  /** Only clients and ephemeral servers are created asynchronously. */
  predicate AsyncKind(kind: nat) {
    kind == H.KIND_CLIENT || kind == H.KIND_EPHEMERAL
  }

  /** The table holds a client or server of runtime `rt` under the word `h`. */
  predicate AsyncLive(rt: H.Handle, t: H.Table, h: nat) {
    var found := H.Lookup(t, H.FromBits(h));
    h < WORDS && AsyncKind(H.FromBits(h).kind) && found.Some? && found.value.owner == rt
  }

  /** A client or server created under `rt`; every such creation is the request side's. */
  predicate CreatesFor(rt: H.Handle, t: H.Table, op: H.Op) {
    op.InsertOwned? && op.runtime == rt && AsyncKind(op.kind) && H.Inserts(t, op)
  }

  /** The handle a step drops with its completion, which `Drop for Pending` then removes. */
  function Dropped(w: R.World, step: R.Step): Option<Pending>
    requires R.Enabled(w, step)
  {
    var p := R.Leaves(w, step);
    if p.Some? && !step.WriteOut? && p.value.Carried().Some? then p else None
  }

  /**
   What the table does at a step of the request side: a creation inserts under its runtime and carries
   the issued word; a dropped completion removes by handle and kind, whoever's entry that finds; any other
   operation, of this runtime or another, removes what it removes; everything else leaves the table alone
   (a rejected operation is such a step).
   */
  ghost predicate Matches(rt: H.Handle, w: R.World, step: R.Step, t: H.Table, op: H.Op, t': H.Table)
    requires R.Enabled(w, step)
  {
    match step
    case OpCreates(_, kind, h, _) =>
      && CreatesFor(rt, t, op) && op.kind == TableKind(kind)
      && (t.free != [] ==> H.NextIndex(t) < |t.slots|) && h == H.ToBits(H.Issued(t, op))
    case RemoveHandles(hs) =>
      !CreatesFor(rt, t, op) && forall h :: h in w.live ==> (h in hs <==> !AsyncLive(rt, t', h))
    case _ =>
      var p := Dropped(w, step);
      if p.Some? then op == H.Free(H.FromBits(p.value.Carried().value), TableKind(p.value.kind)) else t' == t
  }

  ghost predicate Paired(rt: H.Handle, run: seq<R.World>, steps: seq<R.Step>, tables: seq<H.Table>, ops: seq<H.Op>, k: nat)
    requires |run| == |tables| == |steps| + 1 && |ops| == |steps| && k < |steps|
  {
    R.Enabled(run[k], steps[k]) && Matches(rt, run[k], steps[k], tables[k], ops[k], tables[k + 1])
  }

  ghost predicate IsJointRun(rt: H.Handle, run: seq<R.World>, steps: seq<R.Step>, tables: seq<H.Table>, ops: seq<H.Op>) {
    && R.IsRun(run, steps) && H.IsRun(tables, ops) && |ops| == |steps|
    && forall k: nat :: k < |steps| ==> Paired(rt, run, steps, tables, ops, k)
  }

  // ---------------------------------------------------------------------------------------------
  // `live` is the table's clients and servers

  /** A completion names a handle of its own kind, so removing by its kind finds it. */
  predicate Agrees(p: Pending) {
    p.Carried().Some? ==> TableKind(p.kind) == H.FromBits(p.Carried().value).kind
  }

  predicate PhaseAgrees(phase: R.Phase) {
    match phase
    case Holding(r) => Agrees(r)
    case Pushing(r, _) => Agrees(r)
    case Dropping(r) => Agrees(r)
    case _ => true
  }

  ghost predicate AllAgree(ps: seq<Pending>) {
    forall k :: 0 <= k < |ps| ==> Agrees(ps[k])
  }

  ghost predicate CarriersAgree(w: R.World) {
    && (forall t :: 0 <= t < |w.tasks| ==> PhaseAgrees(w.tasks[t].phase))
    && AllAgree(w.queue) && AllAgree(w.writing)
  }

  lemma IssuedWord(h: H.Handle, word: nat)
    requires H.Encodable(h)
    ensures H.ToBits(h) < WORDS && H.FromBits(H.ToBits(h)) == h
    ensures word < WORDS && H.FromBits(word) == h ==> word == H.ToBits(h)
  {
    H.PackRoundTrip(h, 0);
    if word < WORDS && H.FromBits(word) == h { H.PackRoundTrip(h, word); }
  }

  /** A removal, or an insertion of another kind, adds no client and no server. */
  lemma OthersAddNoAsync(rt: H.Handle, t: H.Table, op: H.Op, h: nat)
    requires H.Good(t) && H.Exported(op) && H.Fits(t, op)
    requires !CreatesFor(rt, t, op)
    ensures t.free != [] ==> H.NextIndex(t) < |t.slots|
    ensures AsyncLive(rt, H.Step(t, op), h) ==> AsyncLive(rt, t, h)
  {
    H.GoodNextIndex(t);
    match op
    case NewRuntime(o) => H.InsertRefines(t, H.Entry(H.KIND_RUNTIME, o), H.NULL);
    case NewPoller(o) => H.InsertRefines(t, H.Entry(H.KIND_POLLER, o), H.NULL);
    case InsertOwned(r, kind, o) => if H.Inserts(t, op) { H.InsertRefines(t, H.Entry(kind, o), r); }
    case Free(g, kind) => if H.Validate(t, g, kind).Ok? { H.TakeRefines(t, g.index); }
    case FreeRuntime(g) => if H.Validate(t, g, H.KIND_RUNTIME).Ok? { H.TakeFamilyRefines(t, g); }
  }

  lemma RemovalTakesOne(rt: H.Handle, t: H.Table, g: H.Handle, kind: nat, h: nat)
    requires H.Good(t) && H.Exported(H.Free(g, kind)) && g.kind == kind
    ensures t.free != [] ==> H.NextIndex(t) < |t.slots|
    ensures AsyncLive(rt, H.Step(t, H.Free(g, kind)), h) <==> AsyncLive(rt, t, h) && H.FromBits(h) != g
  {
    H.GoodNextIndex(t);
    if H.Validate(t, g, kind).Ok? { H.TakeRefines(t, g.index); }
  }

  lemma CreationAddsOne(rt: H.Handle, t: H.Table, op: H.Op, h: nat)
    requires H.Good(t) && H.Exported(op) && H.Fits(t, op) && CreatesFor(rt, t, op)
    ensures t.free != [] ==> H.NextIndex(t) < |t.slots|
    ensures var word := H.ToBits(H.Issued(t, op));
            && H.FromBits(word) == H.Issued(t, op) && H.FromBits(word).kind == op.kind
            && (AsyncLive(rt, H.Step(t, op), h) <==> AsyncLive(rt, t, h) || h == word)
            && !AsyncLive(rt, t, word)
  {
    H.GoodNextIndex(t);
    var entry := H.Entry(op.kind, op.arc);
    H.InsertRefines(t, entry, op.runtime);
    H.InsertFills(t, entry, op.runtime);
    IssuedWord(H.Issued(t, op), h);
  }

  lemma DroppedAgrees(w: R.World, step: R.Step)
    requires R.Enabled(w, step) && CarriersAgree(w) && Dropped(w, step).Some?
    ensures Agrees(Dropped(w, step).value)
  {
    match step
    case PushResult(t) => assert PhaseAgrees(w.tasks[t].phase);
    case DropResult(t) => assert PhaseAgrees(w.tasks[t].phase);
    case DropQueued => assert Agrees(w.queue[0]);
    case _ =>
  }

  lemma SameWord(a: nat, b: nat)
    requires H.FromBits(b).kind < 256
    ensures b < WORDS && (a < WORDS ==> (H.FromBits(a) == H.FromBits(b) <==> a == b))
  {
    H.PackRoundTrip(H.NULL, b);
    if a < WORDS { H.PackRoundTrip(H.NULL, a); }
  }

  /** The request side's `live` at one word, and the table, after one joint step. */
  lemma StepKeepsLiveAt(rt: H.Handle, w: R.World, step: R.Step, t: H.Table, op: H.Op, h: nat)
    requires R.Enabled(w, step) && H.Good(t) && H.Exported(op) && H.Fits(t, op) && CarriersAgree(w)
    requires t.free != [] ==> H.NextIndex(t) < |t.slots|
    requires Matches(rt, w, step, t, op, H.Step(t, op))
    requires h in w.live <==> AsyncLive(rt, t, h)
    ensures h in R.Do(w, step).live <==> AsyncLive(rt, H.Step(t, op), h)
  {
    if step.OpCreates? {
      CreationAddsOne(rt, t, op, h);
    } else if step.RemoveHandles? {
      OthersAddNoAsync(rt, t, op, h);
    } else {
      R.StepTouchesTable(w, step, h);
      if Dropped(w, step).Some? {
        DroppedAgrees(w, step);
        var p := Dropped(w, step).value;
        RemovalTakesOne(rt, t, H.FromBits(p.Carried().value), TableKind(p.kind), h);
        SameWord(h, p.Carried().value);
      }
    }
  }

  lemma NewPhaseAgrees(w: R.World, step: R.Step)
    requires R.Enabled(w, step) && R.SetsPhase(step) && PhaseAgrees(w.tasks[step.t].phase)
    requires step.OpCreates? ==> TableKind(step.kind) == H.FromBits(step.handle).kind
    ensures PhaseAgrees(R.PhaseAfter(w, step))
  {
  }

  lemma TasksKeepAgreement(w: R.World, step: R.Step)
    requires R.Enabled(w, step) && CarriersAgree(w)
    requires step.OpCreates? ==> TableKind(step.kind) == H.FromBits(step.handle).kind
    ensures forall t :: 0 <= t < |R.Do(w, step).tasks| ==> PhaseAgrees(R.Do(w, step).tasks[t].phase)
  {
    if R.SetsPhase(step) {
      R.OwnStepSetsPhase(w, step);
      NewPhaseAgrees(w, step);
    } else {
      R.OtherPhasesStay(w, step);
    }
  }

  lemma AllAgreeAfterPush(ps: seq<Pending>, p: Pending)
    requires AllAgree(ps) && Agrees(p)
    ensures AllAgree(ps + [p])
  {
  }

  lemma MovesKeepAgreement(w: R.World, step: R.Step)
    requires R.Enabled(w, step) && AllAgree(w.queue) && AllAgree(w.writing)
    requires !step.PushResult? && !step.DrainOne? && !step.PushEvent?
    ensures AllAgree(R.Do(w, step).queue) && AllAgree(R.Do(w, step).writing)
  {
    if !step.PollDrain? && !step.WriteOut? && !step.DropQueued? {
      assert R.Do(w, step).queue == w.queue && R.Do(w, step).writing == w.writing;
    }
  }

  lemma QueuesKeepAgreement(w: R.World, step: R.Step)
    requires R.Enabled(w, step) && CarriersAgree(w)
    ensures AllAgree(R.Do(w, step).queue) && AllAgree(R.Do(w, step).writing)
  {
    match step
    case PushResult(t) =>
      assert PhaseAgrees(w.tasks[t].phase);
      AllAgreeAfterPush(w.queue, w.tasks[t].phase.result);
    case DrainOne(id, message) => AllAgreeAfterPush(w.queue, ErrorOf(id, KT_ERR_SHUTDOWN, message));
    case PushEvent(e) => AllAgreeAfterPush(w.queue, e);
    case _ => MovesKeepAgreement(w, step);
  }

  lemma StepKeepsAgreement(w: R.World, step: R.Step)
    requires R.Enabled(w, step) && CarriersAgree(w)
    requires step.OpCreates? ==> TableKind(step.kind) == H.FromBits(step.handle).kind
    ensures CarriersAgree(R.Do(w, step))
  {
    TasksKeepAgreement(w, step);
    QueuesKeepAgreement(w, step);
  }

  /** In every reachable state the words the request side calls live are exactly its runtime's clients and servers in the table. */
  lemma {:induction false} LiveIsTheTable(
      rt: H.Handle, run: seq<R.World>, steps: seq<R.Step>, tables: seq<H.Table>, ops: seq<H.Op>, k: nat)
    requires IsJointRun(rt, run, steps, tables, ops) && k < |run|
    ensures CarriersAgree(run[k]) && forall h: nat :: h in run[k].live <==> AsyncLive(rt, tables[k], h)
  {
    if k > 0 {
      LiveIsTheTable(rt, run, steps, tables, ops, k - 1);
      H.RunsStayGood(tables, ops, k - 1);
      var w, step, t, op := run[k - 1], steps[k - 1], tables[k - 1], ops[k - 1];
      assert Paired(rt, run, steps, tables, ops, k - 1) && R.Linked(run, steps, k - 1) && H.Linked(tables, ops, k - 1);
      if step.OpCreates? { CreationAddsOne(rt, t, op, 0); }
      StepKeepsAgreement(w, step);
      forall h: nat ensures h in run[k].live <==> AsyncLive(rt, tables[k], h) {
        StepKeepsLiveAt(rt, w, step, t, op, h);
      }
    }
  }

  /**
   The JVM is told the truth about what it is given: a handle it receives as a connected client, or as a
   started server, passes the table's check for that kind.
   */
  lemma DeliveredHandlesHaveTheirKind(
      rt: H.Handle, run: seq<R.World>, steps: seq<R.Step>, tables: seq<H.Table>, ops: seq<H.Op>, k: nat, i: nat)
    requires IsJointRun(rt, run, steps, tables, ops) && k < |run| && i < |run[k].writing|
    requires run[k].writing[i].Carried().Some? && run[k].writing[i].Carried().value in run[k].live
    ensures var p := run[k].writing[i];
            var h := H.FromBits(p.Carried().value);
            && (p.kind == ClientConnected ==> H.Validate(tables[k], h, H.KIND_CLIENT).Ok?)
            && (p.kind == EphemeralStarted ==> H.Validate(tables[k], h, H.KIND_EPHEMERAL).Ok?)
            && H.Lookup(tables[k], h).value.owner == rt
  {
    LiveIsTheTable(rt, run, steps, tables, ops, k);
    assert Agrees(run[k].writing[i]);
  }

  // ---------------------------------------------------------------------------------------------
  // One owner

  /** A carried handle was created earlier, and has been carried ever since. */
  lemma {:induction false} CarriedSinceCreation(run: seq<R.World>, steps: seq<R.Step>, k: nat, h: nat) returns (j: nat)
    requires R.IsRun(run, steps) && k < |run| && R.Undelivered(run[k], h) > 0
    ensures j < k && steps[j].OpCreates? && steps[j].handle == h
    ensures forall m :: j < m <= k ==> R.Undelivered(run[m], h) > 0
  {
    assert k > 0;
    assert R.Linked(run, steps, k - 1);
    if R.Undelivered(run[k - 1], h) > 0 {
      j := CarriedSinceCreation(run, steps, k - 1, h);
    } else {
      R.StepConservesHandles(run[k - 1], steps[k - 1], h);
      j := k - 1;
    }
  }

  /** While a completion naming a slot is undelivered, that slot is emptied fewer than 2^24 - 1 times. */
  ghost predicate SlotsTurnOverSlowly(run: seq<R.World>, steps: seq<R.Step>, tables: seq<H.Table>)
    requires |run| == |tables| == |steps| + 1
  {
    forall j, k {:trigger steps[j], run[k]} :: 0 <= j < k < |run| && steps[j].OpCreates?
      && (forall m :: j < m <= k ==> R.Undelivered(run[m], steps[j].handle) > 0)
      ==> H.Removals(tables, j + 1, k, H.FromBits(steps[j].handle).index) < H.PERIOD
  }

  /** What a creation's word says about the table operation it was paired with. */
  lemma CreationIsIssue(rt: H.Handle, run: seq<R.World>, steps: seq<R.Step>, tables: seq<H.Table>, ops: seq<H.Op>, k: nat)
    requires IsJointRun(rt, run, steps, tables, ops) && k < |steps| && steps[k].OpCreates?
    ensures R.Enabled(run[k], steps[k]) && H.Inserts(tables[k], ops[k])
    ensures tables[k].free != [] ==> H.NextIndex(tables[k]) < |tables[k].slots|
    ensures H.FromBits(steps[k].handle) == H.Issued(tables[k], ops[k])
    ensures H.FromBits(steps[k].handle).index == H.NextIndex(tables[k])
    ensures H.FromBits(steps[k].handle).kind == TableKind(steps[k].kind)
    ensures steps[k].handle < WORDS
  {
    assert Paired(rt, run, steps, tables, ops, k);
    H.InsertionFills(tables, ops, k);
    IssuedWord(H.Issued(tables[k], ops[k]), 0);
  }

  function KindOf(op: H.Op): nat {
    match op
    case NewRuntime(_) => H.KIND_RUNTIME
    case NewPoller(_) => H.KIND_POLLER
    case InsertOwned(_, kind, _) => kind
    case _ => 0
  }

  /**
   While the completion made at step `j` has been carried, its slot went round the whole cycle of
   generations, so that the insertion at step `k`, by whichever runtime, issues the same word again.
   */
  ghost predicate FullCycle(
      run: seq<R.World>, steps: seq<R.Step>, tables: seq<H.Table>, ops: seq<H.Op>, j: nat, k: nat)
    requires |run| == |tables| == |steps| + 1 && |ops| == |steps|
  {
    && j < k < |steps| && steps[j].OpCreates? && H.Inserts(tables[j], ops[j]) && H.Inserts(tables[k], ops[k])
    && H.NextIndex(tables[j]) == H.NextIndex(tables[k]) && KindOf(ops[j]) == KindOf(ops[k])
    && (forall m :: j < m <= k ==> R.Undelivered(run[m], steps[j].handle) > 0)
    && H.Removals(tables, j + 1, k, H.NextIndex(tables[j])) % H.PERIOD == 0
  }

  /** An insertion by any runtime hits a carried word exactly after a full cycle of its slot. */
  lemma ReissuedIff(
      rt: H.Handle, run: seq<R.World>, steps: seq<R.Step>, tables: seq<H.Table>, ops: seq<H.Op>, k: nat)
    requires IsJointRun(rt, run, steps, tables, ops) && k < |steps| && H.Inserts(tables[k], ops[k])
    ensures tables[k].free != [] ==> H.NextIndex(tables[k]) < |tables[k].slots|
    ensures R.Undelivered(run[k], H.ToBits(H.Issued(tables[k], ops[k]))) > 0
       <==> exists j: nat :: FullCycle(run, steps, tables, ops, j, k)
  {
    H.InsertionFills(tables, ops, k);
    var word := H.ToBits(H.Issued(tables[k], ops[k]));
    IssuedWord(H.Issued(tables[k], ops[k]), 0);
    if R.Undelivered(run[k], word) > 0 {
      var j := CarriedSinceCreation(run, steps, k, word);
      CreationIsIssue(rt, run, steps, tables, ops, j);
      H.SameHandleAgainIff(tables, ops, j, k);
      assert FullCycle(run, steps, tables, ops, j, k);
    }
    if j: nat :| FullCycle(run, steps, tables, ops, j, k) {
      CreationIsIssue(rt, run, steps, tables, ops, j);
      H.SameHandleAgainIff(tables, ops, j, k);
      H.PackRoundTrip(H.NULL, steps[j].handle);
    }
  }

  /** Slots that turn over slowly complete no cycle, so nobody's insertion hits a carried word. */
  lemma NobodyReissuesCarried(
      rt: H.Handle, run: seq<R.World>, steps: seq<R.Step>, tables: seq<H.Table>, ops: seq<H.Op>, k: nat)
    requires IsJointRun(rt, run, steps, tables, ops) && SlotsTurnOverSlowly(run, steps, tables)
    requires k < |steps| && H.Inserts(tables[k], ops[k])
    ensures tables[k].free != [] ==> H.NextIndex(tables[k]) < |tables[k].slots|
    ensures R.Undelivered(run[k], H.ToBits(H.Issued(tables[k], ops[k]))) == 0
  {
    ReissuedIff(rt, run, steps, tables, ops, k);
    if j: nat :| FullCycle(run, steps, tables, ops, j, k) {
      CreationIsIssue(rt, run, steps, tables, ops, j);
      H.SameHandleAgainIff(tables, ops, j, k);
      H.ReissueNeedsFullCycle(tables, ops, j, k);
    }
  }

  lemma NoReissueInFlight(rt: H.Handle, run: seq<R.World>, steps: seq<R.Step>, tables: seq<H.Table>, ops: seq<H.Op>)
    requires IsJointRun(rt, run, steps, tables, ops) && SlotsTurnOverSlowly(run, steps, tables)
    ensures R.NeverReissuedInFlight(run, steps)
  {
    forall k | 0 <= k < |steps| && steps[k].OpCreates? ensures R.Undelivered(run[k], steps[k].handle) == 0 {
      CreationIsIssue(rt, run, steps, tables, ops, k);
      H.PackRoundTrip(H.NULL, steps[k].handle);
      NobodyReissuesCarried(rt, run, steps, tables, ops, k);
    }
  }

  /**
   Over every joint run in which slots turn over slowly, each client and server of the runtime that the
   table holds is carried by exactly one undelivered completion or has been given to the JVM, never both
   and never neither; a word under which the table holds none is not the JVM's.
   */
  lemma EveryHandleHasOneOwner(
      rt: H.Handle, run: seq<R.World>, steps: seq<R.Step>, tables: seq<H.Table>, ops: seq<H.Op>, k: nat, h: nat)
    requires IsJointRun(rt, run, steps, tables, ops) && SlotsTurnOverSlowly(run, steps, tables) && k < |run|
    ensures R.OneOwner(run[k], h)
    ensures AsyncLive(rt, tables[k], h) ==> R.Undelivered(run[k], h) == (if h in run[k].jvm then 0 else 1)
    ensures !AsyncLive(rt, tables[k], h) ==> h !in run[k].jvm
  {
    NoReissueInFlight(rt, run, steps, tables, ops);
    R.OneOwnerUnlessReissued(run, steps, k, h);
    LiveIsTheTable(rt, run, steps, tables, ops, k);
  }

  /** Nothing leaks: once the abandoned queue has been dropped, every client and server of the runtime is the JVM's. */
  lemma NoHandleOutlivesTheQueue(
      rt: H.Handle, run: seq<R.World>, steps: seq<R.Step>, tables: seq<H.Table>, ops: seq<H.Op>, k: nat, h: nat)
    requires IsJointRun(rt, run, steps, tables, ops) && SlotsTurnOverSlowly(run, steps, tables) && k < |run|
    requires run[k].abandoned && run[k].queue == []
    ensures AsyncLive(rt, tables[k], h) <==> h in run[k].jvm
  {
    NoReissueInFlight(rt, run, steps, tables, ops);
    R.DroppedQueueLeavesNoHandle(run, steps, k);
    LiveIsTheTable(rt, run, steps, tables, ops, k);
  }

  /** Over any joint run: every state gives every word one owner exactly when no creation of the runtime completes a cycle. */
  lemma OneOwnerIff(rt: H.Handle, run: seq<R.World>, steps: seq<R.Step>, tables: seq<H.Table>, ops: seq<H.Op>)
    requires IsJointRun(rt, run, steps, tables, ops)
    ensures (forall k: nat, h: nat :: k < |run| ==> R.OneOwner(run[k], h))
       <==> forall j: nat, k: nat :: FullCycle(run, steps, tables, ops, j, k) ==> !steps[k].OpCreates?
  {
    R.OneOwnerIffNeverReissued(run, steps);
    forall k | 0 <= k < |steps| && steps[k].OpCreates?
      ensures R.Undelivered(run[k], steps[k].handle) > 0 <==> exists j: nat :: FullCycle(run, steps, tables, ops, j, k)
    {
      CreationIsIssue(rt, run, steps, tables, ops, k);
      H.PackRoundTrip(H.NULL, steps[k].handle);
      ReissuedIff(rt, run, steps, tables, ops, k);
    }
  }

  // ---------------------------------------------------------------------------------------------
  // Both sides release alike

  /** `releaseDiscarded`: what the JVM calls for a completion nobody takes. */
  function JvmReleases(p: Pending): Option<H.Op> {
    if p.status != KT_OK then None
    else if p.kind == EphemeralStarted then Some(H.Free(H.FromBits(p.aux0), H.KIND_EPHEMERAL))
    else if p.kind == ClientConnected then Some(H.Free(H.FromBits(p.aux0), H.KIND_CLIENT))
    else None
  }

  /** `Drop for Pending`: what native code does with a completion it drops. */
  function NativeReleases(p: Pending): Option<H.Op> {
    if p.Carried().Some? then Some(H.Free(H.FromBits(p.Carried().value), TableKind(p.kind))) else None
  }

  function AfterRelease(t: H.Table, op: Option<H.Op>): H.Table
    requires op.Some? ==> H.Exported(op.value) && (t.free != [] ==> H.NextIndex(t) < |t.slots|)
  {
    if op.Some? then H.Step(t, op.value) else t
  }

  /** Whichever side a completion is discarded on, the same handle leaves the table, if any. */
  lemma BothSidesReleaseAlike(t: H.Table, p: Pending)
    requires H.Good(t) && p.aux0 < WORDS
    ensures t.free != [] ==> H.NextIndex(t) < |t.slots|
    ensures AfterRelease(t, JvmReleases(p)) == AfterRelease(t, NativeReleases(p))
  {
    H.GoodNextIndex(t);
    if p.aux0 == 0 { H.PackRoundTrip(H.NULL, 0); }
  }

  // ---------------------------------------------------------------------------------------------
  // Other runtimes

  /**
   Whatever the shared table holds under a word that is still carried is the very entry its creation made
   under this runtime, however many other runtimes have come and gone in its slot.
   */
  lemma CarriedWordFindsItsOwn(
      rt: H.Handle, run: seq<R.World>, steps: seq<R.Step>, tables: seq<H.Table>, ops: seq<H.Op>, k: nat, h: nat)
    returns (j: nat)
    requires IsJointRun(rt, run, steps, tables, ops) && SlotsTurnOverSlowly(run, steps, tables)
    requires k < |run| && R.Undelivered(run[k], h) > 0 && H.Lookup(tables[k], H.FromBits(h)).Some?
    ensures j < k && steps[j].OpCreates? && steps[j].handle == h && CreatesFor(rt, tables[j], ops[j])
    ensures H.Lookup(tables[k], H.FromBits(h)) == Some(H.Cell(H.Entry(ops[j].kind, ops[j].arc), rt))
  {
    j := CarriedSinceCreation(run, steps, k, h);
    CreationIsIssue(rt, run, steps, tables, ops, j);
    assert Paired(rt, run, steps, tables, ops, j) && H.Linked(tables, ops, j);
    H.RunsStayGood(tables, ops, j);
    H.InsertRefines(tables[j], H.Entry(ops[j].kind, ops[j].arc), rt);
    assert H.Lookup(tables[j + 1], H.FromBits(h)) == Some(H.Cell(H.Entry(ops[j].kind, ops[j].arc), rt));
    H.SameCellWithinACycle(tables, ops, j + 1, k, H.FromBits(h));
  }

  /** A dropped completion is one that was carried until then. */
  lemma DroppedWasCarried(w: R.World, step: R.Step)
    requires R.Enabled(w, step) && Dropped(w, step).Some?
    ensures R.Undelivered(w, Dropped(w, step).value.Carried().value) > 0
  {
    R.StepConservesHandles(w, step, Dropped(w, step).value.Carried().value);
  }

  /**
   A runtime's dropped completions, also those of a runtime freed long ago whose slots others have
   refilled, leave every entry of every other runtime as it is.
   */
  lemma DropSparesOtherRuntimes(
      rt: H.Handle, run: seq<R.World>, steps: seq<R.Step>, tables: seq<H.Table>, ops: seq<H.Op>, k: nat, g: H.Handle)
    requires IsJointRun(rt, run, steps, tables, ops) && SlotsTurnOverSlowly(run, steps, tables)
    requires k < |steps| && R.Enabled(run[k], steps[k]) && Dropped(run[k], steps[k]).Some?
    requires H.Lookup(tables[k], g).Some? && H.Lookup(tables[k], g).value.owner != rt
    ensures H.Lookup(tables[k + 1], g) == H.Lookup(tables[k], g)
  {
    var p := Dropped(run[k], steps[k]).value;
    var h := p.Carried().value;
    DroppedWasCarried(run[k], steps[k]);
    if H.FromBits(h) == g {
      var j := CarriedWordFindsItsOwn(rt, run, steps, tables, ops, k, h);
    }
    assert Paired(rt, run, steps, tables, ops, k) && H.Linked(tables, ops, k);
    H.RunsStayGood(tables, ops, k);
    if H.Validate(tables[k], H.FromBits(h), TableKind(p.kind)).Ok? {
      H.TakeRefines(tables[k], H.FromBits(h).index);
    }
  }

  // ---------------------------------------------------------------------------------------------
  // A run that completes a cycle

  const RT: H.Handle := H.Handle(H.KIND_RUNTIME, 1, 0)
  const VICTIM: H.Handle := H.Handle(H.KIND_CLIENT, 1, 1)
  const RT_SLOT: H.Slot := H.Slot(1, H.NULL, Some(H.Entry(H.KIND_RUNTIME, 0)))

  /** Slot 1 is empty after `n` removals. */
  function Vacant(n: nat): H.Table {
    H.Table([RT_SLOT, H.Slot(H.GenerationAfter(n), H.NULL, None)], [1])
  }

  function Filled(n: nat, kind: nat): H.Table {
    H.Table([RT_SLOT, H.Slot(H.GenerationAfter(n), RT, Some(H.Entry(kind, 0)))], [])
  }

  /** Request 1 holds the client it made under `word`; request 2 is still running. */
  function Carrying(word: nat, live: set<nat>): R.World {
    R.NEW_WORLD.(
      pending := map[1 := 0, 2 := 1],
      tasks := [R.Task(1, false, R.Holding(Pending(1, ClientConnected, KT_OK, [], word, 0))), R.Task(2, false, R.Running)],
      live := live)
  }

  /** A joint run as one value. */
  datatype Joint = Joint(run: seq<R.World>, steps: seq<R.Step>, tables: seq<H.Table>, ops: seq<H.Op>)

  ghost predicate EndsIn(x: Joint, w: R.World, t: H.Table) {
    IsJointRun(RT, x.run, x.steps, x.tables, x.ops) && x.run[|x.steps|] == w && x.tables[|x.steps|] == t
  }

  ghost predicate CanStep(w: R.World, t: H.Table, step: R.Step, op: H.Op) {
    && R.Enabled(w, step) && H.Exported(op) && H.Fits(t, op) && (t.free != [] ==> H.NextIndex(t) < |t.slots|)
    && Matches(RT, w, step, t, op, H.Step(t, op))
  }

  /** The run with one more joint step, which leads to `w'` and `t'`. */
  function Then(x: Joint, step: R.Step, op: H.Op, w': R.World, t': H.Table): Joint {
    Joint(x.run + [w'], x.steps + [step], x.tables + [t'], x.ops + [op])
  }

  lemma JointNext(x: Joint, w: R.World, t: H.Table, step: R.Step, op: H.Op, w': R.World, t': H.Table)
    requires EndsIn(x, w, t) && CanStep(w, t, step, op) && w' == R.Do(w, step) && t' == H.Step(t, op)
    ensures EndsIn(Then(x, step, op, w', t'), w', t')
  {
    var y := Then(x, step, op, w', t');
    forall k: nat | k < |y.steps|
      ensures R.Linked(y.run, y.steps, k) && H.Linked(y.tables, y.ops, k) && Paired(RT, y.run, y.steps, y.tables, y.ops, k)
    {
      if k < |x.steps| {
        assert R.Linked(x.run, x.steps, k) && H.Linked(x.tables, x.ops, k);
        assert Paired(RT, x.run, x.steps, x.tables, x.ops, k);
        assert y.run[k] == x.run[k] && y.run[k + 1] == x.run[k + 1];
        assert y.tables[k] == x.tables[k] && y.tables[k + 1] == x.tables[k + 1];
      }
    }
  }

  /** The run has created a client in slot 1 at step 3 and carried its word, `VICTIM`'s, ever since. */
  ghost predicate CarriesVictim(x: Joint) {
    && |x.steps| > 3 && |x.run| == |x.tables| == |x.steps| + 1 && |x.ops| == |x.steps|
    && x.steps[3].OpCreates? && x.steps[3].handle == H.ToBits(VICTIM)
    && H.Inserts(x.tables[3], x.ops[3]) && H.NextIndex(x.tables[3]) == 1 && KindOf(x.ops[3]) == H.KIND_CLIENT
    && forall m :: 3 < m < |x.run| ==> R.Undelivered(x.run[m], H.ToBits(VICTIM)) > 0
  }

  lemma CarriesOn(x: Joint, step: R.Step, op: H.Op, w': R.World, t': H.Table)
    requires CarriesVictim(x) && R.Undelivered(w', H.ToBits(VICTIM)) > 0
    ensures CarriesVictim(Then(x, step, op, w', t'))
  {
    var y := Then(x, step, op, w', t');
    assert y.steps[3] == x.steps[3] && y.tables[3] == x.tables[3] && y.ops[3] == x.ops[3];
    forall m | 3 < m < |y.run| ensures R.Undelivered(y.run[m], H.ToBits(VICTIM)) > 0 {
      assert m < |x.run| ==> y.run[m] == x.run[m];
    }
  }

  lemma CarryingCarries(word: nat, live: set<nat>)
    requires word != 0
    ensures R.Undelivered(Carrying(word, live), word) > 0
  {
    var tasks := Carrying(word, live).tasks;
    assert tasks[..1][..0] == [];
    assert R.NamedByTasks(tasks[..1], word) == 1;
  }

  /** Filling the vacant slot with a worker and freeing the worker is one removal. */
  lemma WorkerComesAndGoes(n: nat)
    ensures H.Inserts(Vacant(n), H.InsertOwned(RT, H.KIND_WORKER, 0))
    ensures H.Step(Vacant(n), H.InsertOwned(RT, H.KIND_WORKER, 0)) == Filled(n, H.KIND_WORKER)
    ensures H.Step(Filled(n, H.KIND_WORKER), H.Free(H.Handle(H.KIND_WORKER, H.GenerationAfter(n), 1), H.KIND_WORKER)) == Vacant(n + 1)
  {
    H.BumpFollowsCount(n);
  }

  lemma ClientFills(n: nat)
    ensures H.Inserts(Vacant(n), H.InsertOwned(RT, H.KIND_CLIENT, 0)) && H.Fits(Vacant(n), H.InsertOwned(RT, H.KIND_CLIENT, 0))
    ensures H.Issued(Vacant(n), H.InsertOwned(RT, H.KIND_CLIENT, 0)) == H.Handle(H.KIND_CLIENT, H.GenerationAfter(n), 1)
  {
    H.BumpFollowsCount(n);
  }

  const IDLE: H.Op := H.Free(H.NULL, H.KIND_CLIENT)
  const NOTHING: R.Step := R.RemoveHandles({})

  function Alone(): H.Table {
    H.Table([RT_SLOT], [])
  }

  function Registered(n: nat): R.World {
    if n == 0 then R.NEW_WORLD
    else if n == 1 then R.NEW_WORLD.(pending := map[1 := 0], tasks := [R.Task(1, false, R.Running)])
    else R.NEW_WORLD.(pending := map[1 := 0, 2 := 1], tasks := [R.Task(1, false, R.Running), R.Task(2, false, R.Running)])
  }

  lemma Boots() returns (x: Joint)
    ensures EndsIn(x, Registered(0), Alone()) && |x.steps| == 1
  {
    var t0 := H.Table([], []);
    x := Joint([R.NEW_WORLD], [], [t0], []);
    assert EndsIn(x, R.NEW_WORLD, t0);
    assert R.Do(R.NEW_WORLD, NOTHING) == Registered(0) && H.Step(t0, H.NewRuntime(0)) == Alone();
    JointNext(x, R.NEW_WORLD, t0, NOTHING, H.NewRuntime(0), Registered(0), Alone());
    x := Then(x, NOTHING, H.NewRuntime(0), Registered(0), Alone());
  }

  lemma Registers(x: Joint, n: nat) returns (y: Joint)
    requires n < 2 && EndsIn(x, Registered(n), Alone())
    ensures EndsIn(y, Registered(n + 1), Alone()) && |y.steps| == |x.steps| + 1
  {
    assert R.Do(Registered(n), R.Register(n + 1)) == Registered(n + 1);
    assert H.Step(Alone(), IDLE) == Alone();
    JointNext(x, Registered(n), Alone(), R.Register(n + 1), IDLE, Registered(n + 1), Alone());
    y := Then(x, R.Register(n + 1), IDLE, Registered(n + 1), Alone());
  }

  /** What the first creation does on either side. */
  lemma FirstCreation(word: nat)
    requires word == H.ToBits(VICTIM)
    ensures var create, insert := R.OpCreates(0, ClientConnected, word, []), H.InsertOwned(RT, H.KIND_CLIENT, 0);
            && CanStep(Registered(2), Alone(), create, insert) && H.Inserts(Alone(), insert)
            && R.Do(Registered(2), create) == Carrying(word, {word})
            && H.Step(Alone(), insert) == Filled(0, H.KIND_CLIENT)
  {
    assert H.Issued(Alone(), H.InsertOwned(RT, H.KIND_CLIENT, 0)) == VICTIM;
    IssuedWord(VICTIM, word);
    assert H.GenerationAfter(0) == 1;
  }

  /** A runtime, two requests, and a client whose completion is being held. */
  lemma CycleStarts() returns (x: Joint)
    ensures EndsIn(x, Carrying(H.ToBits(VICTIM), {H.ToBits(VICTIM)}), Filled(0, H.KIND_CLIENT)) && CarriesVictim(x)
  {
    var word := H.ToBits(VICTIM);
    x := Boots();
    x := Registers(x, 0);
    x := Registers(x, 1);
    FirstCreation(word);
    var create, insert := R.OpCreates(0, ClientConnected, word, []), H.InsertOwned(RT, H.KIND_CLIENT, 0);
    var after := Carrying(word, {word});
    JointNext(x, Registered(2), Alone(), create, insert, after, Filled(0, H.KIND_CLIENT));
    CarryingCarries(word, {word});
    assert x.tables[3] == Alone();
    x := Then(x, create, insert, after, Filled(0, H.KIND_CLIENT));
  }

  /** The JVM frees the client under its word before the completion has reached it. */
  lemma ClientGoes(x: Joint) returns (y: Joint)
    requires EndsIn(x, Carrying(H.ToBits(VICTIM), {H.ToBits(VICTIM)}), Filled(0, H.KIND_CLIENT)) && CarriesVictim(x)
    ensures EndsIn(y, Carrying(H.ToBits(VICTIM), {}), Vacant(1)) && CarriesVictim(y)
  {
    var word := H.ToBits(VICTIM);
    var before, after := Carrying(word, {word}), Carrying(word, {});
    var gone, free := R.RemoveHandles({word}), H.Free(VICTIM, H.KIND_CLIENT);
    H.BumpFollowsCount(0);
    IssuedWord(VICTIM, word);
    assert H.Step(Filled(0, H.KIND_CLIENT), free) == Vacant(1);
    assert R.Do(before, gone) == after;
    JointNext(x, before, Filled(0, H.KIND_CLIENT), gone, free, after, Vacant(1));
    CarryingCarries(word, {});
    CarriesOn(x, gone, free, after, Vacant(1));
    y := Then(x, gone, free, after, Vacant(1));
  }

  /** One more removal of the slot, while the word is carried. */
  lemma CycleTurns(x: Joint, n: nat) returns (y: Joint)
    requires EndsIn(x, Carrying(H.ToBits(VICTIM), {}), Vacant(n)) && CarriesVictim(x)
    ensures EndsIn(y, Carrying(H.ToBits(VICTIM), {}), Vacant(n + 1)) && CarriesVictim(y)
  {
    var w := Carrying(H.ToBits(VICTIM), {});
    var insert := H.InsertOwned(RT, H.KIND_WORKER, 0);
    var free := H.Free(H.Handle(H.KIND_WORKER, H.GenerationAfter(n), 1), H.KIND_WORKER);
    assert R.Do(w, NOTHING) == w;
    CarryingCarries(H.ToBits(VICTIM), {});
    WorkerComesAndGoes(n);
    JointNext(x, w, Vacant(n), NOTHING, insert, w, Filled(n, H.KIND_WORKER));
    CarriesOn(x, NOTHING, insert, w, Filled(n, H.KIND_WORKER));
    y := Then(x, NOTHING, insert, w, Filled(n, H.KIND_WORKER));
    JointNext(y, w, Filled(n, H.KIND_WORKER), NOTHING, free, w, Vacant(n + 1));
    CarriesOn(y, NOTHING, free, w, Vacant(n + 1));
    y := Then(y, NOTHING, free, w, Vacant(n + 1));
  }

  lemma {:induction false} CycleGoesOn(n: nat) returns (x: Joint)
    requires n > 0
    ensures EndsIn(x, Carrying(H.ToBits(VICTIM), {}), Vacant(n)) && CarriesVictim(x)
  {
    if n == 1 {
      x := CycleStarts();
      x := ClientGoes(x);
    } else {
      x := CycleGoesOn(n - 1);
      x := CycleTurns(x, n - 1);
    }
  }

  /** After a whole cycle the second request is given the first one's word. */
  lemma SecondCreation(word: nat)
    requires word == H.ToBits(VICTIM)
    ensures var create, insert := R.OpCreates(1, ClientConnected, word, []), H.InsertOwned(RT, H.KIND_CLIENT, 0);
            && CanStep(Carrying(word, {}), Vacant(H.PERIOD), create, insert) && H.Inserts(Vacant(H.PERIOD), insert)
  {
    assert H.GenerationAfter(H.PERIOD) == 1;
    ClientFills(H.PERIOD);
    IssuedWord(VICTIM, word);
  }

  /**
   The bound is needed: 2^24 - 1 removals of the slot under a carried word lead to a run in which the
   second request is given the first one's word, and that word then has two carriers.
   */
  lemma FullCycleBreaksOwnership() returns (x: Joint, k: nat)
    ensures IsJointRun(RT, x.run, x.steps, x.tables, x.ops) && k < |x.steps| && x.steps[k].OpCreates?
    ensures FullCycle(x.run, x.steps, x.tables, x.ops, 3, k) && !R.OneOwner(x.run[k + 1], H.ToBits(VICTIM))
  {
    var word := H.ToBits(VICTIM);
    x := CycleGoesOn(H.PERIOD);
    k := |x.steps|;
    var w, t := Carrying(word, {}), Vacant(H.PERIOD);
    var create, insert := R.OpCreates(1, ClientConnected, word, []), H.InsertOwned(RT, H.KIND_CLIENT, 0);
    SecondCreation(word);
    JointNext(x, w, t, create, insert, R.Do(w, create), H.Step(t, insert));
    CarryingCarries(word, {});
    R.StepConservesHandles(w, create, word);
    CarriesOn(x, create, insert, R.Do(w, create), H.Step(t, insert));
    x := Then(x, create, insert, R.Do(w, create), H.Step(t, insert));
    CreationIsIssue(RT, x.run, x.steps, x.tables, x.ops, 3);
    CreationIsIssue(RT, x.run, x.steps, x.tables, x.ops, k);
    H.SameHandleAgainIff(x.tables, x.ops, 3, k);
  }
}
