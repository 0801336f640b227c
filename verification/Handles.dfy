/**
 The generation-counted handle table.

 `Table` is the value behind the table lock, with one function per critical section; the class
 `HandleTable` updates it in place. `Lookup` forgets slots, generations and the free list: it is
 the partial map from handles to cells that callers believe they are using.
 */
module Handles {
  import opened Bridge

  const KIND_UNIT: nat := 0x100_0000_0000_0000 // 1 << 56
  const GEN_UNIT: nat := 0x1_0000_0000         // 1 << 32
  const GEN_COUNT: nat := 0x100_0000           // GEN_MASK + 1
  const INDEX_COUNT: nat := 0x1_0000_0000      // what an u32 index can tell apart
  const PERIOD: nat := GEN_COUNT - 1           // generations 1 .. GEN_MASK

  const KIND_RUNTIME: nat := 1
  const KIND_CLIENT: nat := 2
  const KIND_WORKER: nat := 3
  const KIND_EPHEMERAL: nat := 4
  const KIND_POLLER: nat := 5

  /** The three fields of a 64-bit handle; `ToBits` and `FromBits` are the wire form. */
  datatype Handle = Handle(kind: nat, generation: nat, index: nat)

  /** The all-zero word, which is also how a slot says that nobody owns it. */
  const NULL: Handle := Handle(0, 0, 0)

  /** `arc` stands for the shared pointer an entry holds. */
  datatype Entry = Entry(kind: nat, arc: nat)

  datatype Slot = Slot(generation: nat, owner: Handle, entry: Option<Entry>)

  datatype Table = Table(slots: seq<Slot>, free: seq<nat>)

  datatype Cell = Cell(entry: Entry, owner: Handle)

  // ---------------------------------------------------------------------------------------------
  // Layout: [kind:8 | generation:24 | index:32]

  predicate Encodable(h: Handle) {
    h.kind < 256 && h.generation < GEN_COUNT && h.index < INDEX_COUNT
  }

  function ToBits(h: Handle): nat {
    h.kind * KIND_UNIT + h.generation * GEN_UNIT + h.index
  }

  function FromBits(bits: nat): Handle {
    Handle(bits / KIND_UNIT, bits / GEN_UNIT % GEN_COUNT, bits % INDEX_COUNT)
  }

  /** The layout is a bijection between 64-bit words and field triples; only the zero word is NULL. */
  lemma PackRoundTrip(h: Handle, bits: nat)
    requires Encodable(h) && bits < 256 * KIND_UNIT
    ensures ToBits(h) < 256 * KIND_UNIT && FromBits(ToBits(h)) == h
    ensures Encodable(FromBits(bits)) && ToBits(FromBits(bits)) == bits
    ensures bits == 0 <==> FromBits(bits) == NULL
  {
    assert ToBits(h) / GEN_UNIT == h.kind * GEN_COUNT + h.generation;
  }

  // ---------------------------------------------------------------------------------------------
  // The critical sections

  predicate LiveAt(t: Table, i: nat) {
    i < |t.slots| && t.slots[i].entry.Some?
  }

  /** The checks in the order the source makes them. */
  function Validate(t: Table, handle: Handle, expectedKind: nat): Result<nat> {
    var index := handle.index;
    if handle == NULL then Err(StaleHandle)
    else if handle.kind != expectedKind then Err(WrongHandleKind)
    else if index >= |t.slots| then Err(StaleHandle)
    else if t.slots[index].generation != handle.generation then Err(StaleHandle)
    else if t.slots[index].entry.None? then Err(StaleHandle)
    else if t.slots[index].entry.value.kind != expectedKind then Err(WrongHandleKind)
    else Ok(index)
  }

  function BumpGeneration(generation: nat): nat {
    Max((generation + 1) % GEN_COUNT, 1)
  }

  function Emptied(slot: Slot): Slot {
    Slot(BumpGeneration(slot.generation), NULL, None)
  }

  /** The slot an insertion fills: the last freed one, otherwise a new one. */
  function NextIndex(t: Table): nat {
    if t.free == [] then |t.slots| else t.free[|t.free| - 1]
  }

  /** What `insert_into` encodes: generation and index truncated to their fields. */
  function Issue(kind: nat, generation: nat, index: nat): Handle {
    Handle(kind, generation % GEN_COUNT, index % INDEX_COUNT)
  }

  function Insert(t: Table, entry: Entry, owner: Handle): (r: (Table, Handle))
    requires t.free != [] ==> NextIndex(t) < |t.slots|
  {
    var i := NextIndex(t);
    if t.free == [] then
      (Table(t.slots + [Slot(1, owner, Some(entry))], []), Issue(entry.kind, 1, i))
    else
      var filled := t.slots[i].(owner := owner, entry := Some(entry));
      (Table(t.slots[i := filled], t.free[..|t.free| - 1]), Issue(entry.kind, filled.generation, i))
  }

  function Take(t: Table, i: nat): Table
    requires LiveAt(t, i)
  {
    Table(t.slots[i := Emptied(t.slots[i])], t.free + [i])
  }

  /** The slots below `upto` that `owner` owns, in scan order. */
  function OwnedBelow(slots: seq<Slot>, owner: Handle, upto: nat): seq<nat>
    requires upto <= |slots|
  {
    if upto == 0 then []
    else OwnedBelow(slots, owner, upto - 1) + if slots[upto - 1].owner == owner then [upto - 1] else []
  }

  /** A runtime's removal: its own slot and every slot it owns is emptied, all others are untouched. */
  function TakeFamily(t: Table, index: nat, runtime: Handle): Table
    requires index < |t.slots|
  {
    Table(
      seq(|t.slots|, i requires 0 <= i < |t.slots| =>
        if i == index || t.slots[i].owner == runtime then Emptied(t.slots[i]) else t.slots[i]),
      t.free + [index] + OwnedBelow(t.slots, runtime, |t.slots|))
  }

  // ---------------------------------------------------------------------------------------------
  // What callers see

  function Lookup(t: Table, h: Handle): Option<Cell> {
    match Validate(t, h, h.kind)
    case Ok(i) => Some(Cell(t.slots[i].entry.value, t.slots[i].owner))
    case Err(_) => None
  }

  function HandleAt(t: Table, i: nat): Handle
    requires LiveAt(t, i)
  {
    Handle(t.slots[i].entry.value.kind, t.slots[i].generation, i)
  }

  predicate SlotOk(s: Slot) {
    && 1 <= s.generation < GEN_COUNT
    && (s.entry.Some? ==> 1 <= s.entry.value.kind <= KIND_POLLER)
    && (s.entry.None? ==> s.owner == NULL)
  }

  ghost predicate Valid(t: Table) {
    && |t.slots| <= INDEX_COUNT
    && (forall i :: 0 <= i < |t.slots| ==> SlotOk(t.slots[i]))
    && (forall j, k :: 0 <= j < k < |t.free| ==> t.free[j] != t.free[k])
    && (forall j :: 0 <= j < |t.free| ==> t.free[j] < |t.slots| && t.slots[t.free[j]].entry.None?)
    && (forall i :: 0 <= i < |t.slots| && t.slots[i].entry.None? ==> i in t.free)
  }

  /** A handle resolves exactly when it is the current handle of a live slot. */
  lemma LookupIsLive(t: Table, h: Handle)
    requires Valid(t)
    ensures Lookup(t, h).Some? <==> LiveAt(t, h.index) && HandleAt(t, h.index) == h
    ensures Lookup(t, h).Some? ==> Lookup(t, h).value == Cell(t.slots[h.index].entry.value, t.slots[h.index].owner)
  {
  }

  /** The slot a word points at is live and in the word's generation. */
  predicate Current(t: Table, h: Handle) {
    LiveAt(t, h.index) && HandleAt(t, h.index).generation == h.generation
  }

  /**
   Which error a handle is rejected with, for any word a caller may pass: the wrong kind if the word or the
   live slot it names is of another kind, stale if it names nothing that lives, and no other error.
   */
  lemma RejectionsSayWhy(t: Table, h: Handle, kind: nat)
    requires Valid(t)
    ensures Validate(t, h, kind).Ok? <==> h.kind == kind && Lookup(t, h).Some?
    ensures Validate(t, h, kind) == Err(WrongHandleKind) <==>
      h != NULL && (h.kind != kind || (Current(t, h) && HandleAt(t, h.index).kind != kind))
    ensures Validate(t, h, kind) == Err(StaleHandle) <==> h == NULL || (h.kind == kind && !Current(t, h))
  {
  }

  /** Two live slots never share a handle, and no live handle is the null word. */
  lemma LiveHandlesAreDistinct(t: Table, i: nat, j: nat)
    requires Valid(t) && LiveAt(t, i) && LiveAt(t, j)
    ensures HandleAt(t, i) == HandleAt(t, j) <==> i == j
    ensures Encodable(HandleAt(t, i)) && HandleAt(t, i) != NULL
  {
  }

  // ---------------------------------------------------------------------------------------------
  // Each critical section refines its map operation

  predicate HasRoom(t: Table) {
    t.free != [] || |t.slots| < INDEX_COUNT
  }

  /** Dropping the last free slot and filling it. */
  lemma FillKeepsValid(t: Table, slot: Slot)
    requires Valid(t) && t.free != [] && slot.entry.Some? && SlotOk(slot)
    ensures Valid(Table(t.slots[NextIndex(t) := slot], t.free[..|t.free| - 1]))
  {
    var i, last := NextIndex(t), |t.free| - 1;
    forall j | 0 <= j < last ensures t.free[j] < |t.slots| && t.slots[i := slot][t.free[j]].entry.None? {
      assert t.free[j] != t.free[last];
    }
    forall k | 0 <= k < |t.slots| && t.slots[i := slot][k].entry.None? ensures k in t.free[..last] {
      assert k != i && k in t.free;
      SplitLast(t.free);
    }
  }

  lemma InsertKeepsValid(t: Table, entry: Entry, owner: Handle)
    requires Valid(t) && HasRoom(t) && 1 <= entry.kind <= KIND_POLLER
    ensures Valid(Insert(t, entry, owner).0)
  {
    if t.free != [] {
      var i := NextIndex(t);
      assert SlotOk(t.slots[i]);
      FillKeepsValid(t, t.slots[i].(owner := owner, entry := Some(entry)));
    }
  }

  /** Changing one slot leaves every handle of the other slots alone. */
  lemma LookupElsewhere(t: Table, t': Table, g: Handle, i: nat)
    requires |t.slots| <= |t'.slots| <= |t.slots| + 1 && i < |t'.slots|
    requires |t'.slots| > |t.slots| ==> i == |t.slots|
    requires forall k :: 0 <= k < |t.slots| && k != i ==> t'.slots[k] == t.slots[k]
    ensures g.index != i ==> Lookup(t', g) == Lookup(t, g)
  {
  }

  /** Insertion adds one binding under a handle that was not bound. */
  lemma InsertRefines(t: Table, entry: Entry, owner: Handle)
    requires Valid(t) && HasRoom(t) && 1 <= entry.kind <= KIND_POLLER
    ensures var (t', h) := Insert(t, entry, owner);
            && Valid(t') && Lookup(t, h) == None
            && (forall g :: Lookup(t', g) == if g == h then Some(Cell(entry, owner)) else Lookup(t, g))
  {
    InsertKeepsValid(t, entry, owner);
    var (t', h) := Insert(t, entry, owner);
    var i := NextIndex(t);
    assert i < |t'.slots| && SlotOk(t'.slots[i]);
    assert h == HandleAt(t', i);
    assert !LiveAt(t, i);
    forall g ensures Lookup(t', g) == if g == h then Some(Cell(entry, owner)) else Lookup(t, g) {
      LookupElsewhere(t, t', g, i);
    }
  }

  /**
   A freshly issued handle resolves to its own entry exactly when the slot index fits in 32 bits;
   `as u32` at handle.rs:82 truncates any larger one.
   */
  lemma FreshHandleResolvesIff(t: Table, entry: Entry, owner: Handle)
    requires forall i :: 0 <= i < |t.slots| ==> SlotOk(t.slots[i])
    requires t.free != [] ==> NextIndex(t) < |t.slots|
    requires 1 <= entry.kind <= KIND_POLLER
    ensures var (t', h) := Insert(t, entry, owner);
            Validate(t', h, entry.kind) == Ok(NextIndex(t)) <==> NextIndex(t) < INDEX_COUNT
  {
    var (t', h) := Insert(t, entry, owner);
    var i := NextIndex(t);
    var generation := t'.slots[i].generation;
  }

  /** Removal deletes exactly the one binding. */
  lemma TakeRefines(t: Table, i: nat)
    requires Valid(t) && LiveAt(t, i)
    ensures Valid(Take(t, i))
    ensures forall g :: Lookup(Take(t, i), g) == if g == HandleAt(t, i) then None else Lookup(t, g)
  {
    var t' := Take(t, i);
    forall k | 0 <= k < |t'.slots| && t'.slots[k].entry.None? ensures k in t'.free {
      assert k == i || k in t.free;
      assert t'.free[|t.free|] == i;
    }
  }

  lemma {:induction false} OwnedBelowIsExact(slots: seq<Slot>, owner: Handle, upto: nat)
    requires upto <= |slots|
    ensures var o := OwnedBelow(slots, owner, upto);
            && (forall i :: i in o <==> 0 <= i < upto && slots[i].owner == owner)
            && (forall j, k :: 0 <= j < k < |o| ==> o[j] < o[k])
  {
    if upto > 0 {
      OwnedBelowIsExact(slots, owner, upto - 1);
      var shorter := OwnedBelow(slots, owner, upto - 1);
      assert forall j :: 0 <= j < |shorter| ==> shorter[j] in shorter;
    }
  }

  /** Owned slots are live, belong to a runtime the table still holds, and are not runtimes themselves. */
  ghost predicate OwnershipClosed(t: Table) {
    forall i {:trigger t.slots[i]} :: 0 <= i < |t.slots| && t.slots[i].owner != NULL ==>
      && t.slots[i].entry.Some? && t.slots[i].entry.value.kind != KIND_RUNTIME
      && Validate(t, t.slots[i].owner, KIND_RUNTIME).Ok?
  }

  /** The runtime itself or something it owns. */
  predicate InFamily(t: Table, g: Handle, runtime: Handle) {
    g == runtime || (Lookup(t, g).Some? && Lookup(t, g).value.owner == runtime)
  }

  lemma FamilyLookup(t: Table, runtime: Handle, g: Handle)
    requires Valid(t) && Validate(t, runtime, KIND_RUNTIME).Ok?
    ensures Lookup(TakeFamily(t, runtime.index, runtime), g) == if InFamily(t, g, runtime) then None else Lookup(t, g)
  {
    var t' := TakeFamily(t, runtime.index, runtime);
    if g.index < |t.slots| {
      assert t'.slots[g.index] == t.slots[g.index] || t'.slots[g.index] == Emptied(t.slots[g.index]);
    }
  }

  lemma FamilyKeepsOwnership(t: Table, runtime: Handle)
    requires Valid(t) && OwnershipClosed(t) && Validate(t, runtime, KIND_RUNTIME).Ok?
    requires Valid(TakeFamily(t, runtime.index, runtime))
    ensures OwnershipClosed(TakeFamily(t, runtime.index, runtime))
  {
    var t' := TakeFamily(t, runtime.index, runtime);
    forall k | 0 <= k < |t'.slots| && t'.slots[k].owner != NULL
      ensures Validate(t', t'.slots[k].owner, KIND_RUNTIME).Ok?
    {
      assert t'.slots[k] == t.slots[k];
      FamilyLookup(t, runtime, t.slots[k].owner);
    }
  }

  lemma FreeListExtends(free: seq<nat>, i: nat, owned: seq<nat>, all: seq<nat>)
    requires forall j, k :: 0 <= j < k < |free| ==> free[j] != free[k]
    requires forall j, k :: 0 <= j < k < |owned| ==> owned[j] < owned[k]
    requires i !in free && i !in owned && (forall x :: x in free ==> x !in owned)
    requires all == free + [i] + owned
    ensures forall j, k :: 0 <= j < k < |all| ==> all[j] != all[k]
    ensures forall x :: x in all <==> x in free || x == i || x in owned
  {
    assert all[|free|] == i;
    forall x | x in owned ensures x in all {
      var j :| 0 <= j < |owned| && owned[j] == x;
      assert all[|free| + 1 + j] == x;
    }
    forall x | x in free ensures x in all {
      var j :| 0 <= j < |free| && free[j] == x;
      assert all[j] == x;
    }
    forall j, k | 0 <= j < k < |all| ensures all[j] != all[k] {
      assert j < |free| ==> all[j] in free;
      assert k > |free| ==> all[k] in owned && all[k] == owned[k - |free| - 1];
      assert j > |free| ==> all[j] == owned[j - |free| - 1];
    }
  }

  lemma FamilyFreesExactly(t: Table, i: nat, runtime: Handle)
    requires Valid(t) && LiveAt(t, i) && t.slots[i].owner != runtime && runtime != NULL
    requires forall k :: 0 <= k < |t.slots| && t.slots[k].owner == runtime ==> t.slots[k].entry.Some?
    ensures Valid(TakeFamily(t, i, runtime))
  {
    var t' := TakeFamily(t, i, runtime);
    var owned := OwnedBelow(t.slots, runtime, |t.slots|);
    OwnedBelowIsExact(t.slots, runtime, |t.slots|);
    FreeListExtends(t.free, i, owned, t'.free);
    forall k | 0 <= k < |t'.slots| && t'.slots[k].entry.None? ensures k in t'.free {
      assert k in t.free || k == i || k in owned;
    }
    forall j | 0 <= j < |t'.free| ensures t'.free[j] < |t'.slots| && t'.slots[t'.free[j]].entry.None? {
      assert t'.free[j] in t'.free;
    }
  }

  /**
   Removing a runtime deletes its own binding and exactly its children's; nothing else changes,
   and the slots it empties are all live (so `take`'s expect is not reached on an empty one).
   */
  lemma TakeFamilyRefines(t: Table, runtime: Handle)
    requires Valid(t) && OwnershipClosed(t) && Validate(t, runtime, KIND_RUNTIME).Ok?
    ensures var t' := TakeFamily(t, runtime.index, runtime);
            && Valid(t') && OwnershipClosed(t')
            && (forall k :: k in [runtime.index] + OwnedBelow(t.slots, runtime, |t.slots|) ==> LiveAt(t, k))
            && (forall g :: Lookup(t', g) == if InFamily(t, g, runtime) then None else Lookup(t, g))
  {
    var i := runtime.index;
    var t' := TakeFamily(t, i, runtime);
    assert t.slots[i].owner == NULL;
    OwnedBelowIsExact(t.slots, runtime, |t.slots|);
    FamilyFreesExactly(t, i, runtime);
    forall g ensures Lookup(t', g) == if InFamily(t, g, runtime) then None else Lookup(t, g) {
      FamilyLookup(t, runtime, g);
    }
    FamilyKeepsOwnership(t, runtime);
  }

  // ---------------------------------------------------------------------------------------------
  // Every sequence of table operations the exported entry points can perform

  datatype Op =
    | NewRuntime(arc: nat)
    | NewPoller(arc: nat)
    | InsertOwned(runtime: Handle, kind: nat, arc: nat)
    | Free(handle: Handle, kind: nat)
    | FreeRuntime(handle: Handle)

  /** Which operations exist at all: runtimes leave only by FreeRuntime, owned entries are never runtimes or pollers. */
  predicate Exported(op: Op) {
    match op
    case InsertOwned(_, kind, _) => KIND_CLIENT <= kind <= KIND_EPHEMERAL
    case Free(_, kind) => KIND_CLIENT <= kind <= KIND_POLLER
    case _ => true
  }

  /** An operation's effect; failing validations leave the table alone. */
  function Step(t: Table, op: Op): Table
    requires Exported(op) && (t.free != [] ==> NextIndex(t) < |t.slots|)
  {
    match op
    case NewRuntime(o) => Insert(t, Entry(KIND_RUNTIME, o), NULL).0
    case NewPoller(o) => Insert(t, Entry(KIND_POLLER, o), NULL).0
    case InsertOwned(r, kind, o) =>
      if Validate(t, r, KIND_RUNTIME).Ok? then Insert(t, Entry(kind, o), r).0 else t
    case Free(h, kind) =>
      if Validate(t, h, kind).Ok? then Take(t, h.index) else t
    case FreeRuntime(h) =>
      if Validate(t, h, KIND_RUNTIME).Ok? then TakeFamily(t, h.index, h) else t
  }

  ghost predicate Good(t: Table) {
    Valid(t) && OwnershipClosed(t)
  }

  /** Only an operation that inserts takes an index; a rejected creation and a removal need none. */
  predicate Inserts(t: Table, op: Op) {
    match op
    case NewRuntime(_) => true
    case NewPoller(_) => true
    case InsertOwned(r, _, _) => Validate(t, r, KIND_RUNTIME).Ok?
    case _ => false
  }

  predicate Fits(t: Table, op: Op) {
    Inserts(t, op) ==> HasRoom(t)
  }

  lemma GoodNextIndex(t: Table)
    requires Valid(t)
    ensures t.free != [] ==> NextIndex(t) < |t.slots|
  {
    assert t.free != [] ==> t.free[|t.free| - 1] < |t.slots|;
  }

  lemma InsertKeepsOwnership(t: Table, entry: Entry, owner: Handle)
    requires Good(t) && HasRoom(t) && 1 <= entry.kind <= KIND_POLLER
    requires owner == NULL || (entry.kind != KIND_RUNTIME && Validate(t, owner, KIND_RUNTIME).Ok?)
    ensures Good(Insert(t, entry, owner).0)
  {
    var (t', h) := Insert(t, entry, owner);
    InsertRefines(t, entry, owner);
    forall k | 0 <= k < |t'.slots| && t'.slots[k].owner != NULL
      ensures Validate(t', t'.slots[k].owner, KIND_RUNTIME).Ok?
    {
      assert k < |t.slots| && k != NextIndex(t) ==> t'.slots[k] == t.slots[k];
      var o: Handle := t'.slots[k].owner;
      assert Validate(t, o, KIND_RUNTIME).Ok?;
      assert o.index != NextIndex(t);
    }
  }

  /** Ownership stays closed under every exported operation. */
  lemma StepKeepsGood(t: Table, op: Op)
    requires Good(t) && Exported(op) && Fits(t, op)
    ensures t.free != [] ==> NextIndex(t) < |t.slots|
    ensures Good(Step(t, op))
  {
    GoodNextIndex(t);
    match op
    case NewRuntime(o) => InsertKeepsOwnership(t, Entry(KIND_RUNTIME, o), NULL);
    case NewPoller(o) => InsertKeepsOwnership(t, Entry(KIND_POLLER, o), NULL);
    case InsertOwned(r, kind, o) =>
      if Validate(t, r, KIND_RUNTIME).Ok? { InsertKeepsOwnership(t, Entry(kind, o), r); }
    case Free(h, kind) =>
      if Validate(t, h, kind).Ok? {
        var i := h.index;
        LookupIsLive(t, h);
        TakeRefines(t, i);
        var t' := Take(t, i);
        forall k | 0 <= k < |t'.slots| && t'.slots[k].owner != NULL
          ensures Validate(t', t'.slots[k].owner, KIND_RUNTIME).Ok?
        {
          assert k != i && Validate(t, t.slots[k].owner, KIND_RUNTIME).Ok?;
          assert t.slots[k].owner.index != i;
        }
      }
    case FreeRuntime(h) =>
      if Validate(t, h, KIND_RUNTIME).Ok? { TakeFamilyRefines(t, h); }
  }

  /** The k-th step of a run: an exported operation; if it inserts, an index that fits in 32 bits is left. */
  ghost predicate Linked(run: seq<Table>, ops: seq<Op>, k: nat)
    requires k < |ops| && |run| == |ops| + 1
  {
    && Exported(ops[k]) && Fits(run[k], ops[k])
    && (run[k].free != [] ==> NextIndex(run[k]) < |run[k].slots|)
    && run[k + 1] == Step(run[k], ops[k])
  }

  ghost predicate IsRun(run: seq<Table>, ops: seq<Op>) {
    |run| == |ops| + 1 && run[0] == Table([], []) && forall k: nat :: k < |ops| ==> Linked(run, ops, k)
  }

  /** From the empty table, every run keeps the table well formed and ownership closed. */
  lemma {:induction false} RunsStayGood(run: seq<Table>, ops: seq<Op>, k: nat)
    requires IsRun(run, ops) && k < |run|
    ensures Good(run[k])
  {
    if k > 0 {
      RunsStayGood(run, ops, k - 1);
      assert Linked(run, ops, k - 1);
      StepKeepsGood(run[k - 1], ops[k - 1]);
    }
  }

  // ---------------------------------------------------------------------------------------------
  // The plain map that callers believe they use, and that every run of the table simulates

  ghost predicate Represents(t: Table, m: map<Handle, Cell>) {
    forall h :: (h in m <==> Lookup(t, h).Some?) && (h in m ==> m[h] == Lookup(t, h).value)
  }

  ghost predicate Binds(m: map<Handle, Cell>, m': map<Handle, Cell>, cell: Cell) {
    exists h :: h !in m && h != NULL && h.kind == cell.entry.kind && m' == m[h := cell]
  }

  /** The operations on the map; the only freedom is which unbound handle a creation picks. */
  ghost predicate MapStep(m: map<Handle, Cell>, op: Op, m': map<Handle, Cell>) {
    match op
    case NewRuntime(o) => Binds(m, m', Cell(Entry(KIND_RUNTIME, o), NULL))
    case NewPoller(o) => Binds(m, m', Cell(Entry(KIND_POLLER, o), NULL))
    case InsertOwned(r, kind, o) =>
      if r in m && r.kind == KIND_RUNTIME then Binds(m, m', Cell(Entry(kind, o), r)) else m' == m
    case Free(h, kind) => m' == if h.kind == kind then m - {h} else m
    case FreeRuntime(h) =>
      m' == if h in m && h.kind == KIND_RUNTIME
            then map g | g in m && g != h && m[g].owner != h :: m[g]
            else m
  }

  lemma InsertSimulates(t: Table, m: map<Handle, Cell>, entry: Entry, owner: Handle) returns (m': map<Handle, Cell>)
    requires Good(t) && HasRoom(t) && Represents(t, m) && 1 <= entry.kind <= KIND_POLLER
    ensures Represents(Insert(t, entry, owner).0, m') && Binds(m, m', Cell(entry, owner))
  {
    var (t', h) := Insert(t, entry, owner);
    InsertRefines(t, entry, owner);
    m' := m[h := Cell(entry, owner)];
    assert t'.slots[NextIndex(t)].generation != 0;
  }

  lemma FreeSimulates(t: Table, h: Handle, kind: nat, m: map<Handle, Cell>) returns (m': map<Handle, Cell>)
    requires Valid(t) && Represents(t, m)
    ensures Represents(if Validate(t, h, kind).Ok? then Take(t, h.index) else t, m')
    ensures m' == if h.kind == kind then m - {h} else m
  {
    if Validate(t, h, kind).Ok? {
      TakeRefines(t, h.index);
      m' := m - {h};
    } else {
      assert h.kind == kind ==> h !in m;
      assert h !in m ==> m - {h} == m;
      m' := m;
    }
  }

  /** Any table whose resolution is `t`'s without the family represents `m` without the family. */
  lemma WithoutFamilyRepresents(t: Table, t': Table, h: Handle, m: map<Handle, Cell>, m': map<Handle, Cell>)
    requires Represents(t, m) && m' == map g | g in m && g != h && m[g].owner != h :: m[g]
    requires forall g :: Lookup(t', g) == if InFamily(t, g, h) then None else Lookup(t, g)
    ensures Represents(t', m')
  {
    forall g ensures (g in m' <==> Lookup(t', g).Some?) && (g in m' ==> m'[g] == Lookup(t', g).value) {
      assert g in m <==> Lookup(t, g).Some?;
    }
  }

  lemma FreeRuntimeSimulates(t: Table, h: Handle, m: map<Handle, Cell>) returns (m': map<Handle, Cell>)
    requires Good(t) && Represents(t, m)
    ensures Represents(if Validate(t, h, KIND_RUNTIME).Ok? then TakeFamily(t, h.index, h) else t, m')
    ensures m' == if h in m && h.kind == KIND_RUNTIME then map g | g in m && g != h && m[g].owner != h :: m[g] else m
  {
    m' := m;
    assert h in m <==> Lookup(t, h).Some?;
    if Validate(t, h, KIND_RUNTIME).Ok? {
      TakeFamilyRefines(t, h);
      m' := map g | g in m && g != h && m[g].owner != h :: m[g];
      WithoutFamilyRepresents(t, TakeFamily(t, h.index, h), h, m, m');
    }
  }

  /** Every exported operation on the table is that operation on the map it represents. */
  lemma StepSimulatesMap(t: Table, op: Op, m: map<Handle, Cell>) returns (m': map<Handle, Cell>)
    requires Good(t) && Exported(op) && Fits(t, op) && Represents(t, m)
    ensures t.free != [] ==> NextIndex(t) < |t.slots|
    ensures Represents(Step(t, op), m') && MapStep(m, op, m')
  {
    GoodNextIndex(t);
    m' := m;
    match op
    case NewRuntime(o) => m' := InsertSimulates(t, m, Entry(KIND_RUNTIME, o), NULL);
    case NewPoller(o) => m' := InsertSimulates(t, m, Entry(KIND_POLLER, o), NULL);
    case InsertOwned(r, kind, o) =>
      if Validate(t, r, KIND_RUNTIME).Ok? { m' := InsertSimulates(t, m, Entry(kind, o), r); }
    case Free(h, kind) => m' := FreeSimulates(t, h, kind, m);
    case FreeRuntime(h) => m' := FreeRuntimeSimulates(t, h, m);
  }

  lemma ExtendRun(run: seq<Table>, ops: seq<Op>, n: nat, before: seq<map<Handle, Cell>>, m': map<Handle, Cell>)
    returns (maps: seq<map<Handle, Cell>>)
    requires 0 < n < |run| && n <= |ops| && |before| == n
    requires forall k :: 0 <= k < n ==> Represents(run[k], before[k])
    requires forall k :: 0 <= k < n - 1 ==> MapStep(before[k], ops[k], before[k + 1])
    requires Represents(run[n], m') && MapStep(before[n - 1], ops[n - 1], m')
    ensures maps == before + [m']
    ensures forall k :: 0 <= k <= n ==> Represents(run[k], maps[k])
    ensures forall k :: 0 <= k < n ==> MapStep(maps[k], ops[k], maps[k + 1])
  {
    maps := before + [m'];
    forall k | 0 <= k < n ensures MapStep(maps[k], ops[k], maps[k + 1]) {
      assert maps[k] == before[k] && maps[k + 1] == if k + 1 < n then before[k + 1] else m';
    }
  }

  /** Every run of the table is a run of the map, from the empty map on. */
  lemma {:induction false} RunsRefineMap(run: seq<Table>, ops: seq<Op>, n: nat) returns (maps: seq<map<Handle, Cell>>)
    requires IsRun(run, ops) && n < |run|
    ensures |maps| == n + 1 && maps[0] == map[]
    ensures forall k :: 0 <= k <= n ==> Represents(run[k], maps[k])
    ensures forall k :: 0 <= k < n ==> MapStep(maps[k], ops[k], maps[k + 1])
  {
    if n == 0 {
      maps := [map[]];
    } else {
      var before := RunsRefineMap(run, ops, n - 1);
      RunsStayGood(run, ops, n - 1);
      assert Linked(run, ops, n - 1);
      var m' := StepSimulatesMap(run[n - 1], ops[n - 1], before[n - 1]);
      maps := ExtendRun(run, ops, n, before, m');
    }
  }

  // ---------------------------------------------------------------------------------------------
  // Generations, and when a stale handle could resolve again

  predicate Removed(before: Table, after: Table, i: nat) {
    LiveAt(before, i) && !LiveAt(after, i)
  }

  /** How often slot `i` was emptied between two points of a run. */
  ghost function Removals(run: seq<Table>, from: nat, till: nat, i: nat): nat
    requires from <= till < |run|
    decreases till - from
  {
    if from == till then 0
    else Removals(run, from, till - 1, i) + if Removed(run[till - 1], run[till], i) then 1 else 0
  }

  /** The generation of a slot that has been emptied `k` times. */
  function GenerationAfter(k: nat): nat {
    1 + k % PERIOD
  }

  lemma BumpFollowsCount(k: nat)
    ensures BumpGeneration(GenerationAfter(k)) == GenerationAfter(k + 1)
    ensures 1 <= GenerationAfter(k) < GEN_COUNT
  {
    assert (k + 1) % PERIOD == if k % PERIOD == PERIOD - 1 then 0 else k % PERIOD + 1;
  }

  /** One operation bumps a slot's generation exactly when it empties the slot. */
  lemma StepBumpsRemoved(t: Table, op: Op, i: nat)
    requires Good(t) && Exported(op) && Fits(t, op) && i < |t.slots|
    ensures t.free != [] ==> NextIndex(t) < |t.slots|
    ensures i < |Step(t, op).slots|
    ensures Step(t, op).slots[i].generation
         == if Removed(t, Step(t, op), i) then BumpGeneration(t.slots[i].generation) else t.slots[i].generation
  {
    GoodNextIndex(t);
    match op
    case NewRuntime(_) =>
    case NewPoller(_) =>
    case InsertOwned(r, kind, o) =>
    case Free(h, kind) =>
      if Validate(t, h, kind).Ok? { LookupIsLive(t, h); }
    case FreeRuntime(h) =>
      if Validate(t, h, KIND_RUNTIME).Ok? {
        LookupIsLive(t, h);
        TakeFamilyRefines(t, h);
      }
  }

  /** One step of a run moves a slot along the cycle of generations exactly when it empties the slot. */
  lemma OneStepGeneration(run: seq<Table>, ops: seq<Op>, at: nat, i: nat, k: nat)
    requires IsRun(run, ops) && at < |ops|
    requires i < |run[at].slots| && run[at].slots[i].generation == GenerationAfter(k)
    ensures i < |run[at + 1].slots|
    ensures run[at + 1].slots[i].generation == GenerationAfter(k + if Removed(run[at], run[at + 1], i) then 1 else 0)
  {
    RunsStayGood(run, ops, at);
    assert Linked(run, ops, at);
    StepBumpsRemoved(run[at], ops[at], i);
    BumpFollowsCount(k);
  }

  /** A slot emptied k times since it held generation g carries the k-th generation after g. */
  lemma {:induction false} GenerationLaw(run: seq<Table>, ops: seq<Op>, from: nat, till: nat, i: nat, k: nat)
    requires IsRun(run, ops) && from <= till < |run|
    requires i < |run[from].slots| && run[from].slots[i].generation == GenerationAfter(k)
    ensures i < |run[till].slots|
    ensures run[till].slots[i].generation == GenerationAfter(k + Removals(run, from, till, i))
    decreases till
  {
    if from < till {
      GenerationLaw(run, ops, from, till - 1, i, k);
      OneStepGeneration(run, ops, till - 1, i, k + Removals(run, from, till - 1, i));
    }
  }

  /** A new slot starts in generation 1, and the step that adds it empties nothing at that index. */
  lemma BornInFirstGeneration(run: seq<Table>, ops: seq<Op>, at: nat, i: nat)
    requires IsRun(run, ops) && at < |ops| && |run[at].slots| <= i < |run[at + 1].slots|
    ensures run[at + 1].slots[i].generation == 1
  {
    RunsStayGood(run, ops, at);
    assert Linked(run, ops, at);
  }

  /** No step shortens the slot vector. */
  lemma SlotsOnlyGrow(run: seq<Table>, ops: seq<Op>, at: nat)
    requires IsRun(run, ops) && at < |ops|
    ensures |run[at].slots| <= |run[at + 1].slots|
  {
    RunsStayGood(run, ops, at);
    assert Linked(run, ops, at);
  }

  lemma {:induction false} NeverRemovedBeforeBirth(run: seq<Table>, ops: seq<Op>, till: nat, i: nat)
    requires IsRun(run, ops) && till < |run| && i >= |run[till].slots|
    ensures Removals(run, 0, till, i) == 0
  {
    if till > 0 {
      SlotsOnlyGrow(run, ops, till - 1);
      NeverRemovedBeforeBirth(run, ops, till - 1, i);
    }
  }

  /** A slot is born in generation 1, so after k removals it is in generation 1 + k mod (2^24 - 1). */
  lemma {:induction false} GenerationCountsRemovals(run: seq<Table>, ops: seq<Op>, till: nat, i: nat)
    requires IsRun(run, ops) && till < |run| && i < |run[till].slots|
    ensures run[till].slots[i].generation == GenerationAfter(Removals(run, 0, till, i))
    decreases till
  {
    if i < |run[till - 1].slots| {
      GenerationCountsRemovals(run, ops, till - 1, i);
      OneStepGeneration(run, ops, till - 1, i, Removals(run, 0, till - 1, i));
    } else {
      NeverRemovedBeforeBirth(run, ops, till - 1, i);
      BornInFirstGeneration(run, ops, till - 1, i);
    }
  }

  lemma CongruentDifference(k: nat, d: nat)
    requires (k + d) % PERIOD == k % PERIOD
    ensures d % PERIOD == 0
  {
    assert k == k / PERIOD * PERIOD + k % PERIOD;
    assert k + d == (k + d) / PERIOD * PERIOD + (k + d) % PERIOD;
    assert d == ((k + d) / PERIOD - k / PERIOD) * PERIOD;
  }

  /** A handle that resolves at two points of a run spans a multiple of 2^24 - 1 removals of its slot. */
  lemma StaleHandleNeedsFullCycle(run: seq<Table>, ops: seq<Op>, from: nat, till: nat, h: Handle)
    requires IsRun(run, ops) && from <= till < |run|
    requires Lookup(run[from], h).Some? && Lookup(run[till], h).Some?
    ensures Removals(run, from, till, h.index) % PERIOD == 0
  {
    var i := h.index;
    RunsStayGood(run, ops, from);
    RunsStayGood(run, ops, till);
    LookupIsLive(run[from], h);
    LookupIsLive(run[till], h);
    var k := Removals(run, 0, from, i);
    var d := Removals(run, from, till, i);
    GenerationCountsRemovals(run, ops, from, i);
    GenerationLaw(run, ops, from, till, i, k);
    assert GenerationAfter(k) == GenerationAfter(k + d);
    CongruentDifference(k, d);
  }

  lemma ShortOfACycle(d: nat)
    requires 0 < d < PERIOD
    ensures d % PERIOD != 0
  {
  }

  /** The handle an inserting operation hands out. */
  function Issued(t: Table, op: Op): Handle
    requires Inserts(t, op) && (t.free != [] ==> NextIndex(t) < |t.slots|)
  {
    match op
    case NewRuntime(o) => Insert(t, Entry(KIND_RUNTIME, o), NULL).1
    case NewPoller(o) => Insert(t, Entry(KIND_POLLER, o), NULL).1
    case InsertOwned(r, kind, o) => Insert(t, Entry(kind, o), r).1
  }

  /** An insertion fills a slot that was not live, and its handle is that slot's handle. */
  lemma InsertFills(t: Table, entry: Entry, owner: Handle)
    requires Valid(t) && HasRoom(t) && 1 <= entry.kind <= KIND_POLLER
    ensures t.free != [] ==> NextIndex(t) < |t.slots|
    ensures var (t', h) := Insert(t, entry, owner);
            var i := NextIndex(t);
            && !LiveAt(t, i) && LiveAt(t', i) && HandleAt(t', i) == h && h.index == i && Encodable(h)
            && Lookup(t, h) == None && Lookup(t', h).Some?
  {
    GoodNextIndex(t);
    InsertRefines(t, entry, owner);
    var i := NextIndex(t);
    assert t.free != [] ==> SlotOk(t.slots[i]);
  }

  lemma InsertionFills(run: seq<Table>, ops: seq<Op>, k: nat)
    requires IsRun(run, ops) && k < |ops| && Inserts(run[k], ops[k])
    ensures run[k].free != [] ==> NextIndex(run[k]) < |run[k].slots|
    ensures var i, h := NextIndex(run[k]), Issued(run[k], ops[k]);
            && !LiveAt(run[k], i) && LiveAt(run[k + 1], i) && HandleAt(run[k + 1], i) == h && h.index == i && Encodable(h)
            && Lookup(run[k], h) == None && Lookup(run[k + 1], h).Some?
  {
    RunsStayGood(run, ops, k);
    assert Linked(run, ops, k);
    match ops[k]
    case NewRuntime(o) => InsertFills(run[k], Entry(KIND_RUNTIME, o), NULL);
    case NewPoller(o) => InsertFills(run[k], Entry(KIND_POLLER, o), NULL);
    case InsertOwned(r, kind, o) => InsertFills(run[k], Entry(kind, o), r);
  }

  /** A live slot that a step does not empty is left exactly as it is. */
  lemma LiveSlotIsKept(t: Table, op: Op, i: nat)
    requires Good(t) && Exported(op) && Fits(t, op) && LiveAt(t, i)
    ensures t.free != [] ==> NextIndex(t) < |t.slots|
    ensures !Removed(t, Step(t, op), i) ==> i < |Step(t, op).slots| && Step(t, op).slots[i] == t.slots[i]
  {
    GoodNextIndex(t);
    assert t.free != [] ==> t.slots[t.free[|t.free| - 1]].entry.None?;
  }

  lemma {:induction false} KeptUntilRemoved(run: seq<Table>, ops: seq<Op>, from: nat, till: nat, i: nat)
    requires IsRun(run, ops) && from <= till < |run| && LiveAt(run[from], i) && Removals(run, from, till, i) == 0
    ensures LiveAt(run[till], i) && run[till].slots[i] == run[from].slots[i]
    decreases till
  {
    if from < till {
      KeptUntilRemoved(run, ops, from, till - 1, i);
      RunsStayGood(run, ops, till - 1);
      assert Linked(run, ops, till - 1);
      LiveSlotIsKept(run[till - 1], ops[till - 1], i);
    }
  }

  lemma SameGenerationIff(k: nat, d: nat)
    ensures GenerationAfter(k) == GenerationAfter(k + d) <==> d % PERIOD == 0
  {
    if (k + d) % PERIOD == k % PERIOD { CongruentDifference(k, d); }
    if d % PERIOD == 0 {
      assert k == k / PERIOD * PERIOD + k % PERIOD && d == d / PERIOD * PERIOD;
      assert k + d == (k / PERIOD + d / PERIOD) * PERIOD + k % PERIOD;
    }
  }

  /** What the slot filled by an insertion holds as its generation, before a later insertion fills it again. */
  lemma RefilledGeneration(run: seq<Table>, ops: seq<Op>, j: nat, k: nat) returns (a: nat)
    requires IsRun(run, ops) && j < k < |ops| && Inserts(run[j], ops[j]) && Inserts(run[k], ops[k])
    requires NextIndex(run[j]) == NextIndex(run[k])
    ensures run[j].free != [] ==> NextIndex(run[j]) < |run[j].slots|
    ensures run[k].free != [] ==> NextIndex(run[k]) < |run[k].slots|
    ensures Issued(run[j], ops[j]).generation == GenerationAfter(a)
    ensures Issued(run[k], ops[k]).generation == GenerationAfter(a + Removals(run, j + 1, k, NextIndex(run[j])))
    ensures Issued(run[j], ops[j]).index == Issued(run[k], ops[k]).index
  {
    var i := NextIndex(run[j]);
    InsertionFills(run, ops, j);
    InsertionFills(run, ops, k);
    a := Removals(run, 0, j + 1, i);
    GenerationCountsRemovals(run, ops, j + 1, i);
    GenerationLaw(run, ops, j + 1, k, i, a);
    GenerationLaw(run, ops, k, k + 1, i, a + Removals(run, j + 1, k, i));
    assert !Removed(run[k], run[k + 1], i);
    assert Removals(run, k, k, i) == 0;
  }

  /** Two insertions of one kind into one slot hand out the same handle exactly when the slot was emptied a multiple of 2^24 - 1 times between them. */
  lemma SameHandleAgainIff(run: seq<Table>, ops: seq<Op>, j: nat, k: nat)
    requires IsRun(run, ops) && j < k < |ops| && Inserts(run[j], ops[j]) && Inserts(run[k], ops[k])
    requires NextIndex(run[j]) == NextIndex(run[k])
    ensures run[j].free != [] ==> NextIndex(run[j]) < |run[j].slots|
    ensures run[k].free != [] ==> NextIndex(run[k]) < |run[k].slots|
    ensures Issued(run[j], ops[j]) == Issued(run[k], ops[k]) <==>
      && Issued(run[j], ops[j]).kind == Issued(run[k], ops[k]).kind
      && Removals(run, j + 1, k, NextIndex(run[j])) % PERIOD == 0
  {
    var a := RefilledGeneration(run, ops, j, k);
    SameGenerationIff(a, Removals(run, j + 1, k, NextIndex(run[j])));
  }

  /** A handle issued twice means its slot was emptied at least 2^24 - 1 times in between. */
  lemma ReissueNeedsFullCycle(run: seq<Table>, ops: seq<Op>, j: nat, k: nat)
    requires IsRun(run, ops) && j < k < |ops| && Inserts(run[j], ops[j]) && Inserts(run[k], ops[k])
    requires (run[j].free != [] ==> NextIndex(run[j]) < |run[j].slots|) && (run[k].free != [] ==> NextIndex(run[k]) < |run[k].slots|)
    requires Issued(run[j], ops[j]) == Issued(run[k], ops[k])
    ensures Removals(run, j + 1, k, Issued(run[j], ops[j]).index) >= PERIOD
  {
    InsertionFills(run, ops, j);
    InsertionFills(run, ops, k);
    var i := NextIndex(run[j]);
    SameHandleAgainIff(run, ops, j, k);
    if Removals(run, j + 1, k, i) == 0 {
      KeptUntilRemoved(run, ops, j + 1, k, i);
    } else if Removals(run, j + 1, k, i) < PERIOD {
      ShortOfACycle(Removals(run, j + 1, k, i));
    }
  }

  /** A handle that still resolves after less than a cycle of removals resolves to the very cell it did before. */
  lemma SameCellWithinACycle(run: seq<Table>, ops: seq<Op>, from: nat, till: nat, h: Handle)
    requires IsRun(run, ops) && from <= till < |run| && Lookup(run[from], h).Some? && Lookup(run[till], h).Some?
    requires Removals(run, from, till, h.index) < PERIOD
    ensures Lookup(run[till], h) == Lookup(run[from], h)
  {
    RunsStayGood(run, ops, from);
    RunsStayGood(run, ops, till);
    LookupIsLive(run[from], h);
    LookupIsLive(run[till], h);
    StaleHandleNeedsFullCycle(run, ops, from, till, h);
    if Removals(run, from, till, h.index) > 0 {
      ShortOfACycle(Removals(run, from, till, h.index));
    } else {
      KeptUntilRemoved(run, ops, from, till, h.index);
    }
  }

  lemma FreeingEmptiesTheSlot(run: seq<Table>, ops: seq<Op>, at: nat, runtime: Handle)
    requires IsRun(run, ops) && at < |ops| && ops[at] == FreeRuntime(runtime)
    requires Lookup(run[at], runtime).Some? && runtime.kind == KIND_RUNTIME
    ensures Removals(run, at, at + 1, runtime.index) == 1
  {
    RunsStayGood(run, ops, at);
    LookupIsLive(run[at], runtime);
    assert Linked(run, ops, at);
    assert Removed(run[at], run[at + 1], runtime.index);
  }

  lemma {:induction false} RemovalsCompose(run: seq<Table>, a: nat, b: nat, c: nat, i: nat)
    requires a <= b <= c < |run|
    ensures Removals(run, a, c, i) == Removals(run, a, b, i) + Removals(run, b, c, i)
    decreases c
  {
    if b < c { RemovalsCompose(run, a, b, c - 1, i); }
  }

  /** A freed runtime's handle does not resolve until its slot has been emptied 2^24 - 1 times in all. */
  lemma FreedRuntimeStaysStale(run: seq<Table>, ops: seq<Op>, at: nat, till: nat, runtime: Handle)
    requires IsRun(run, ops) && at < till < |run|
    requires Lookup(run[at], runtime).Some? && ops[at] == FreeRuntime(runtime) && runtime.kind == KIND_RUNTIME
    requires Removals(run, at + 1, till, runtime.index) < PERIOD - 1
    ensures Lookup(run[till], runtime) == None
  {
    FreeingEmptiesTheSlot(run, ops, at, runtime);
    RemovalsCompose(run, at, at + 1, till, runtime.index);
    ShortOfACycle(Removals(run, at, till, runtime.index));
    if Lookup(run[till], runtime).Some? {
      StaleHandleNeedsFullCycle(run, ops, at, till, runtime);
    }
  }

  /** Until then creations owned by it are rejected and leave the table exactly as it was. */
  lemma FreedRuntimeRejectsChildren(run: seq<Table>, ops: seq<Op>, at: nat, till: nat, runtime: Handle, kind: nat, arc: nat)
    requires IsRun(run, ops) && at < till < |run|
    requires Lookup(run[at], runtime).Some? && ops[at] == FreeRuntime(runtime) && runtime.kind == KIND_RUNTIME
    requires Removals(run, at + 1, till, runtime.index) < PERIOD - 1
    requires KIND_CLIENT <= kind <= KIND_EPHEMERAL
    ensures Validate(run[till], runtime, KIND_RUNTIME).Err?
    ensures run[till].free != [] ==> NextIndex(run[till]) < |run[till].slots|
    ensures Step(run[till], InsertOwned(runtime, kind, arc)) == run[till]
  {
    FreedRuntimeStaysStale(run, ops, at, till, runtime);
    RunsStayGood(run, ops, till);
  }

  // ---------------------------------------------------------------------------------------------
  // The table as the source updates it: two vectors behind one lock

  /** What the owned slots hold, in scan order. */
  function OwnedEntries(slots: seq<Slot>, owner: Handle, upto: nat): seq<Entry>
    requires upto <= |slots|
  {
    if upto == 0 then []
    else
      var s := slots[upto - 1];
      OwnedEntries(slots, owner, upto - 1) + if s.owner == owner && s.entry.Some? then [s.entry.value] else []
  }

  /** The scan does not see the runtime's own slot, which nobody owns. */
  lemma {:induction false} OwnedIgnores(a: seq<Slot>, b: seq<Slot>, i: nat, owner: Handle, upto: nat)
    requires upto <= |a| == |b| && i < |a| && a[i].owner != owner && b[i].owner != owner
    requires forall k :: 0 <= k < |a| && k != i ==> a[k] == b[k]
    ensures OwnedBelow(a, owner, upto) == OwnedBelow(b, owner, upto)
    ensures OwnedEntries(a, owner, upto) == OwnedEntries(b, owner, upto)
  {
    if upto > 0 { OwnedIgnores(a, b, i, owner, upto - 1); }
  }

  lemma StepKeepsGoodForFree(t: Table, h: Handle)
    requires Good(t)
    ensures t.free != [] ==> NextIndex(t) < |t.slots|
    ensures Good(Step(t, FreeRuntime(h)))
  {
    if t.free != [] { assert t.free[|t.free| - 1] < |t.slots|; }
    if Validate(t, h, KIND_RUNTIME).Ok? { TakeFamilyRefines(t, h); }
  }

  class HandleTable {
    var slots: seq<Slot>
    var free: seq<nat>

    function View(): Table
      reads this
    {
      Table(slots, free)
    }

    constructor ()
      ensures View() == Table([], []) && Good(View())
    {
      slots, free := [], [];
    }

    method InsertInto(entry: Entry, owner: Handle) returns (handle: Handle)
      requires Valid(View()) && HasRoom(View()) && 1 <= entry.kind <= KIND_POLLER
      modifies this
      ensures (View(), handle) == Insert(old(View()), entry, owner)
      ensures Valid(View()) && Lookup(old(View()), handle) == None
      ensures forall g :: Lookup(View(), g) == if g == handle then Some(Cell(entry, owner)) else Lookup(old(View()), g)
    {
      InsertRefines(View(), entry, owner);
      var index;
      if free != [] {
        index := free[|free| - 1];
        free := free[..|free| - 1];
        slots := slots[index := slots[index].(entry := Some(entry), owner := owner)];
      } else {
        slots := slots + [Slot(1, owner, Some(entry))];
        index := |slots| - 1;
      }
      handle := Issue(entry.kind, slots[index].generation, index);
    }

    /** A rejected entry is handed back so the caller can close it outside the lock. */
    method InsertOwned(runtime: Handle, entry: Entry) returns (r: Result<Handle>, rejected: Option<Entry>)
      requires Good(View()) && Fits(View(), Op.InsertOwned(runtime, entry.kind, entry.arc)) && KIND_CLIENT <= entry.kind <= KIND_EPHEMERAL
      modifies this
      ensures Good(View()) && View() == Step(old(View()), Op.InsertOwned(runtime, entry.kind, entry.arc))
      ensures r.Ok? <==> Lookup(old(View()), runtime).Some? && runtime.kind == KIND_RUNTIME
      ensures r.Ok? ==> rejected == None && Lookup(View(), r.value) == Some(Cell(entry, runtime))
      ensures r.Err? ==> r.error == Shutdown && rejected == Some(entry) && View() == old(View())
    {
      LookupIsLive(View(), runtime);
      StepKeepsGood(View(), Op.InsertOwned(runtime, entry.kind, entry.arc));
      if Validate(View(), runtime, KIND_RUNTIME).Err? {
        return Err(Shutdown), Some(entry);
      }
      var handle := InsertInto(entry, runtime);
      return Ok(handle), None;
    }

    method TakeSlot(index: nat) returns (entry: Entry)
      requires LiveAt(View(), index)
      modifies this
      ensures View() == Take(old(View()), index) && entry == old(slots[index].entry.value)
    {
      entry := slots[index].entry.value;
      slots := slots[index := Emptied(slots[index])];
      free := free + [index];
    }

    method RemoveOfKind(handle: Handle, expectedKind: nat) returns (r: Result<Entry>)
      requires Valid(View())
      modifies this
      ensures Valid(View())
      ensures r.Ok? <==> Lookup(old(View()), handle).Some? && handle.kind == expectedKind
      ensures r.Ok? ==>
        && r.value == Lookup(old(View()), handle).value.entry
        && forall g :: Lookup(View(), g) == if g == handle then None else Lookup(old(View()), g)
      ensures r.Err? ==> View() == old(View()) && Err(r.error) == Validate(View(), handle, expectedKind)
    {
      LookupIsLive(View(), handle);
      var index := Validate(View(), handle, expectedKind);
      if index.Err? {
        return Err(index.error);
      }
      TakeRefines(View(), index.value);
      var entry := TakeSlot(index.value);
      r := Ok(entry);
    }

    method RequireOwner(handle: Handle, runtime: Handle) returns (r: Result<()>)
      requires Valid(View())
      ensures r.Ok? <==> Lookup(View(), handle).Some? && Lookup(View(), handle).value.owner == runtime
      ensures r.Err? ==>
        r.error == var v := Validate(View(), handle, handle.kind); if v.Err? then v.error else InvalidArgument
    {
      LookupIsLive(View(), handle);
      var index := Validate(View(), handle, handle.kind);
      if index.Err? {
        return Err(index.error);
      }
      if slots[index.value].owner != runtime {
        return Err(InvalidArgument);
      }
      r := Ok(());
    }

    /** The scan that empties every slot `runtime` owns, in slot order. */
    method TakeOwned(runtime: Handle) returns (children: seq<Entry>)
      requires forall k :: 0 <= k < |slots| && slots[k].owner == runtime ==> slots[k].entry.Some?
      requires runtime != NULL
      modifies this
      ensures |slots| == |old(slots)|
      ensures forall k :: 0 <= k < |slots| ==>
        slots[k] == if old(slots)[k].owner == runtime then Emptied(old(slots)[k]) else old(slots)[k]
      ensures free == old(free) + OwnedBelow(old(slots), runtime, |old(slots)|)
      ensures children == OwnedEntries(old(slots), runtime, |old(slots)|)
    {
      children := [];
      var i := 0;
      while i < |slots|
        invariant i <= |slots| == |old(slots)|
        invariant forall k :: 0 <= k < |slots| ==>
          slots[k] == if k < i && old(slots)[k].owner == runtime then Emptied(old(slots)[k]) else old(slots)[k]
        invariant free == old(free) + OwnedBelow(old(slots), runtime, i)
        invariant children == OwnedEntries(old(slots), runtime, i)
      {
        if slots[i].owner == runtime {
          var child := TakeSlot(i);
          children := children + [child];
        }
        i := i + 1;
      }
    }

    /** The runtime goes first, then its children. */
    method RemoveRuntime(runtime: Handle) returns (r: Result<Entry>, children: seq<Entry>)
      requires Good(View())
      modifies this
      ensures Good(View()) && View() == Step(old(View()), FreeRuntime(runtime))
      ensures r.Ok? <==> Lookup(old(View()), runtime).Some? && runtime.kind == KIND_RUNTIME
      ensures r.Ok? ==>
        && r.value == Lookup(old(View()), runtime).value.entry
        && children == OwnedEntries(old(slots), runtime, |old(slots)|)
      ensures r.Err? ==> children == []
    {
      LookupIsLive(View(), runtime);
      StepKeepsGoodForFree(View(), runtime);
      children := [];
      var validated := Validate(View(), runtime, KIND_RUNTIME);
      if validated.Err? {
        return Err(validated.error), [];
      }
      ghost var t := View();
      TakeFamilyRefines(t, runtime);
      var entry := TakeSlot(validated.value);
      OwnedIgnores(t.slots, slots, validated.value, runtime, |slots|);
      children := TakeOwned(runtime);
      assert View() == TakeFamily(t, validated.value, runtime);
      r := Ok(entry);
    }
  }

  /** Every child is handed over exactly once: the k-th entry is what the k-th owned slot held. */
  lemma {:induction false} OwnedEntriesMatch(slots: seq<Slot>, owner: Handle, upto: nat)
    requires upto <= |slots| && forall k :: 0 <= k < |slots| && slots[k].owner == owner ==> slots[k].entry.Some?
    ensures |OwnedEntries(slots, owner, upto)| == |OwnedBelow(slots, owner, upto)|
    ensures forall k :: 0 <= k < |OwnedBelow(slots, owner, upto)| ==>
      && OwnedBelow(slots, owner, upto)[k] < upto
      && slots[OwnedBelow(slots, owner, upto)[k]].entry == Some(OwnedEntries(slots, owner, upto)[k])
  {
    if upto > 0 { OwnedEntriesMatch(slots, owner, upto - 1); }
  }
}
