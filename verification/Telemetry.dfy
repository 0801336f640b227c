/**
 The metric window: Core records samples into a bounded buffer, the JVM drains it through a native call
 that may have to be repeated with a bigger buffer.
 */
module Telemetry {
  import opened Bridge

  type Bytes = seq<byte>

  const MAX_UPDATES: nat := 65_536
  const TWO_31: nat := 0x8000_0000
  const TWO_32: nat := 0x1_0000_0000

  datatype Value = IntValue(i: int) | DoubleValue(d: real) | BoolValue(b: bool) | StringValue(s: string)

  datatype Attribute = Attribute(key: string, value: Value)

  datatype Sample = Sample(instrument: nat, attributes: seq<Attribute>, value: Value)

  datatype Definition = Definition(id: nat, name: string, description: string, unit: string, kind: nat)

  /** The one log line the meter itself writes, and the lines Core had buffered. */
  datatype LogRecord = DroppedWarning(count: nat) | CoreLog(text: Bytes)

  datatype Batch = Batch(definitions: seq<Definition>, updates: seq<Sample>, logs: seq<LogRecord>)

  datatype Meter = Meter(
    instruments: map<(string, nat), nat>,
    definitions: seq<Definition>,
    updates: seq<Sample>,
    dropped: nat)

  const NEW_METER: Meter := Meter(map[], [], [], 0)

  // ---------------------------------------------------------------------------------------------
  // What the meter's operations do

  function Declared(m: Meter, kind: nat, name: string, description: string, unit: string): Meter {
    if (name, kind) in m.instruments then m
    else
      var id := |m.definitions| + 1;
      m.(definitions := m.definitions + [Definition(id, name, description, unit, kind)],
         instruments := m.instruments[(name, kind) := id])
  }

  function Recorded(m: Meter, sample: Sample): Meter {
    if |m.updates| == MAX_UPDATES then m.(updates := m.updates[1..] + [sample], dropped := m.dropped + 1)
    else m.(updates := m.updates + [sample])
  }

  function InstrumentsOf(samples: seq<Sample>): set<nat> {
    set i | 0 <= i < |samples| :: samples[i].instrument
  }

  /** The definitions with an id in `ids`, in id order. */
  function Used(table: seq<Definition>, ids: set<nat>): seq<Definition> {
    if table == [] then []
    else
      var last := |table| - 1;
      Used(table[..last], ids) + if last + 1 in ids then [table[last]] else []
  }

  function Warnings(dropped: nat): seq<LogRecord> {
    if dropped == 0 then [] else [DroppedWarning(dropped)]
  }

  function DrainedBatch(m: Meter): Batch {
    Batch(Used(m.definitions, InstrumentsOf(m.updates)), m.updates, Warnings(m.dropped))
  }

  function WithLogs(b: Batch, coreLogs: seq<Bytes>): Batch {
    b.(logs := b.logs + seq(|coreLogs|, i requires 0 <= i < |coreLogs| => CoreLog(coreLogs[i])))
  }

  function Emptied(m: Meter): Meter {
    m.(updates := [], dropped := 0)
  }

  // ---------------------------------------------------------------------------------------------
  // Windows

  /** The last `n` elements, or all of them when there are fewer. */
  function LastOf<T>(s: seq<T>, n: nat): seq<T> {
    s[|s| - Min(n, |s|)..]
  }

  /** In id order, and every entry is the table's own. */
  ghost predicate Picked(defs: seq<Definition>, table: seq<Definition>, ids: set<nat>) {
    && (forall i, j :: 0 <= i < j < |defs| ==> defs[i].id < defs[j].id)
    && (forall i :: 0 <= i < |defs| ==>
          1 <= defs[i].id <= |table| && defs[i] == table[defs[i].id - 1] && defs[i].id in ids)
  }

  ghost predicate Has(defs: seq<Definition>, id: nat) {
    exists i :: 0 <= i < |defs| && defs[i].id == id
  }

  /** `defs` has exactly the definitions with an id in `ids`, each once, in id order, as `table` has them. */
  ghost predicate Exactly(defs: seq<Definition>, table: seq<Definition>, ids: set<nat>) {
    Picked(defs, table, ids) && forall id :: id in ids ==> Has(defs, id)
  }

  function DroppedIn(logs: seq<LogRecord>): nat {
    if logs != [] && logs[0].DroppedWarning? then logs[0].count else 0
  }

  /** `b` is what the reader must see of the samples recorded in `window`. */
  ghost predicate Shows(b: Batch, window: seq<Sample>, table: seq<Definition>) {
    && b.updates == LastOf(window, MAX_UPDATES)
    && DroppedIn(b.logs) + |b.updates| == |window|
    && Exactly(b.definitions, table, InstrumentsOf(b.updates))
  }

  ghost predicate Numbered(table: seq<Definition>) {
    forall i :: 0 <= i < |table| ==> table[i].id == i + 1
  }

  function KeyOf(d: Definition): (string, nat) {
    (d.name, d.kind)
  }

  predicate KeyPoints(index: map<(string, nat), nat>, table: seq<Definition>, k: (string, nat)) {
    k in index ==> 1 <= index[k] <= |table| && KeyOf(table[index[k] - 1]) == k
  }

  predicate RowIsFound(index: map<(string, nat), nat>, table: seq<Definition>, i: nat) {
    i < |table| ==> KeyOf(table[i]) in index && index[KeyOf(table[i])] == i + 1
  }

  /** One definition for each instrument name and kind, numbered from 1; `index` is its inverse. */
  ghost predicate IsIndex(index: map<(string, nat), nat>, table: seq<Definition>) {
    Numbered(table) && (forall k :: KeyPoints(index, table, k)) && (forall i: nat :: RowIsFound(index, table, i))
  }

  ghost predicate Indexed(m: Meter) {
    IsIndex(m.instruments, m.definitions)
  }

  ghost predicate Named(samples: seq<Sample>, count: nat) {
    forall i :: 0 <= i < |samples| ==> 1 <= samples[i].instrument <= count
  }

  lemma {:induction false} UsedIsPicked(table: seq<Definition>, ids: set<nat>)
    requires Numbered(table)
    ensures Picked(Used(table, ids), table, ids)
  {
    if table != [] {
      var last := |table| - 1;
      UsedIsPicked(table[..last], ids);
      var earlier, defs := Used(table[..last], ids), Used(table, ids);
      assert forall i :: 0 <= i < |earlier| ==> defs[i] == earlier[i] && earlier[i] == table[earlier[i].id - 1];
      assert forall i :: |earlier| <= i < |defs| ==> defs[i] == table[last] && defs[i].id == |table|;
    }
  }

  lemma {:induction false} UsedHasAll(table: seq<Definition>, ids: set<nat>, id: nat)
    requires Numbered(table) && id in ids && 1 <= id <= |table|
    ensures Has(Used(table, ids), id)
  {
    var last := |table| - 1;
    var earlier, defs := Used(table[..last], ids), Used(table, ids);
    if id == |table| {
      assert defs[|earlier|].id == id;
    } else {
      UsedHasAll(table[..last], ids, id);
      var i :| 0 <= i < |earlier| && earlier[i].id == id;
      assert defs[i].id == id;
    }
  }

  /** Recording one more sample keeps the buffer equal to the end of the window. */
  lemma RecordingSlidesTheWindow(m: Meter, window: seq<Sample>, sample: Sample)
    requires m.updates == LastOf(window, MAX_UPDATES) && m.dropped + |m.updates| == |window|
    ensures var after := Recorded(m, sample);
            && after.updates == LastOf(window + [sample], MAX_UPDATES)
            && after.dropped + |after.updates| == |window| + 1
  {
    if |m.updates| == MAX_UPDATES {
      assert LastOf(window + [sample], MAX_UPDATES) == m.updates[1..] + [sample];
    } else {
      assert |window| < MAX_UPDATES && m.updates == window;
    }
  }

  /** A drain shows exactly its window, whatever Core logged meanwhile. */
  lemma DrainShowsTheWindow(m: Meter, window: seq<Sample>, coreLogs: seq<Bytes>)
    requires Indexed(m) && Named(window, |m.definitions|)
    requires m.updates == LastOf(window, MAX_UPDATES) && m.dropped + |m.updates| == |window|
    ensures Shows(WithLogs(DrainedBatch(m), coreLogs), window, m.definitions)
  {
    var ids := InstrumentsOf(m.updates);
    UsedIsPicked(m.definitions, ids);
    forall id | id in ids ensures Has(Used(m.definitions, ids), id) {
      UsedHasAll(m.definitions, ids, id);
    }
  }

  lemma ShowsSurvivesNewDefinitions(b: Batch, window: seq<Sample>, table: seq<Definition>, more: seq<Definition>)
    requires Shows(b, window, table) && table <= more
    ensures Shows(b, window, more)
  {
  }

  lemma AddingKeepsTheIndex(index: map<(string, nat), nat>, table: seq<Definition>, d: Definition)
    requires IsIndex(index, table) && KeyOf(d) !in index && d.id == |table| + 1
    ensures IsIndex(index[KeyOf(d) := d.id], table + [d])
  {
    var index2, table2 := index[KeyOf(d) := d.id], table + [d];
    forall k ensures KeyPoints(index2, table2, k) {
      assert KeyPoints(index, table, k);
    }
    forall i: nat ensures RowIsFound(index2, table2, i) {
      assert RowIsFound(index, table, i);
    }
  }

  /** Asking for an instrument again answers the same id; its first definition is the one that stays. */
  lemma DeclaringKeepsTheIndex(m: Meter, kind: nat, name: string, description: string, unit: string)
    requires Indexed(m)
    ensures var after := Declared(m, kind, name, description, unit);
            && Indexed(after) && m.definitions <= after.definitions
            && (name, kind) in after.instruments
            && Declared(after, kind, name, description, unit) == after
            && (forall k :: k in m.instruments ==> k in after.instruments && after.instruments[k] == m.instruments[k])
  {
    if (name, kind) !in m.instruments {
      AddingKeepsTheIndex(m.instruments, m.definitions, Definition(|m.definitions| + 1, name, description, unit, kind));
    }
  }

  // ---------------------------------------------------------------------------------------------
  // Copying a retained batch out

  datatype Written = Written(result: Result<Bytes>, length: Option<nat>)

  /** What `write_out` answers, what it copies, and the length it reports, as a `u32`. */
  function WriteOutcome(src: Bytes, outNull: bool, cap: nat, lenNull: bool): Written {
    if lenNull then Written(Err(InvalidArgument), None)
    else
      var length := Some(|src| % TWO_32);
      if |src| > cap then Written(Err(BufferTooSmall), length)
      else if src != [] && outNull then Written(Err(InvalidArgument), length)
      else Written(Ok(src), length)
  }

  // ---------------------------------------------------------------------------------------------
  // Every run of recorders and readers

  /**
   `windows` are the samples recorded before each drain, `fetched` the lines Core's log buffer gave up to
   it, `batches` what the drains produced, and `delivered` the byte strings copied to a reader.
   */
  datatype World = World(
    meter: Meter,
    retained: Option<Bytes>,
    window: seq<Sample>,
    windows: seq<seq<Sample>>,
    fetched: seq<seq<Bytes>>,
    batches: seq<Batch>,
    delivered: seq<Bytes>,
    recorded: seq<Sample>)

  datatype Step =
    | Declare(kind: nat, name: string, description: string, unit: string)
    | Record(sample: Sample)
    | Retrieve(outNull: bool, cap: nat, lenNull: bool, coreLogs: seq<Bytes>)

  const START: World := World(NEW_METER, None, [], [], [], [], [], [])

  /** A sample can only come from an instrument the meter handed out. */
  predicate Enabled(w: World, step: Step) {
    step.Record? ==> 1 <= step.sample.instrument <= |w.meter.definitions|
  }

  function Fetch(w: World, coreLogs: seq<Bytes>, encode: Batch -> Bytes): (r: World)
    ensures r.retained.Some?
  {
    if w.retained.Some? then w
    else
      var batch := WithLogs(DrainedBatch(w.meter), coreLogs);
      w.(meter := Emptied(w.meter), retained := Some(encode(batch)),
         window := [], windows := w.windows + [w.window], fetched := w.fetched + [coreLogs], batches := w.batches + [batch])
  }

  function CopyOut(w: World, outNull: bool, cap: nat, lenNull: bool): World
    requires w.retained.Some?
  {
    var answer := WriteOutcome(w.retained.value, outNull, cap, lenNull).result;
    if answer.Ok? then w.(retained := None, delivered := w.delivered + [answer.value]) else w
  }

  function AddSample(w: World, sample: Sample): World {
    w.(meter := Recorded(w.meter, sample), window := w.window + [sample], recorded := w.recorded + [sample])
  }

  function AddDefinition(w: World, kind: nat, name: string, description: string, unit: string): World {
    w.(meter := Declared(w.meter, kind, name, description, unit))
  }

  function Do(w: World, step: Step, encode: Batch -> Bytes): World {
    match step
    case Declare(kind, name, description, unit) => AddDefinition(w, kind, name, description, unit)
    case Record(sample) => AddSample(w, sample)
    case Retrieve(outNull, cap, lenNull, coreLogs) => CopyOut(Fetch(w, coreLogs, encode), outNull, cap, lenNull)
  }

  function Encoded(batches: seq<Batch>, encode: Batch -> Bytes): seq<Bytes> {
    if batches == [] then []
    else Encoded(batches[..|batches| - 1], encode) + [encode(batches[|batches| - 1])]
  }

  function Joined<T>(parts: seq<seq<T>>): seq<T> {
    if parts == [] then [] else Joined(parts[..|parts| - 1]) + parts[|parts| - 1]
  }

  ghost predicate WindowExact(w: World) {
    && Indexed(w.meter) && Named(w.window, |w.meter.definitions|)
    && w.meter.updates == LastOf(w.window, MAX_UPDATES)
    && w.meter.dropped + |w.meter.updates| == |w.window|
    && w.recorded == Joined(w.windows) + w.window
  }

  ghost predicate BatchesExact(w: World) {
    && |w.batches| == |w.windows|
    && forall i :: 0 <= i < |w.batches| ==> Shows(w.batches[i], w.windows[i], w.meter.definitions)
  }

  /** Core's lines in a batch, in order. */
  function LinesIn(logs: seq<LogRecord>): seq<Bytes> {
    if logs == [] then []
    else
      var last := logs[|logs| - 1];
      LinesIn(logs[..|logs| - 1]) + if last.CoreLog? then [last.text] else []
  }

  function AllLines(batches: seq<Batch>): seq<Bytes> {
    if batches == [] then [] else AllLines(batches[..|batches| - 1]) + LinesIn(batches[|batches| - 1].logs)
  }

  /** Core's lines, after the one warning if samples were lost from the window. */
  ghost predicate LogsShow(logs: seq<LogRecord>, window: seq<Sample>, fetched: seq<Bytes>) {
    && LinesIn(logs) == fetched
    && (|window| <= MAX_UPDATES ==> |logs| == |fetched|)
    && (|window| > MAX_UPDATES ==> |logs| == |fetched| + 1 && logs[0] == DroppedWarning(|window| - MAX_UPDATES))
  }

  /** No line Core gave up is lost, repeated or moved. */
  ghost predicate LogsExact(w: World) {
    && |w.fetched| == |w.batches| == |w.windows|
    && (forall i :: 0 <= i < |w.batches| ==> LogsShow(w.batches[i].logs, w.windows[i], w.fetched[i]))
    && AllLines(w.batches) == Joined(w.fetched)
  }

  ghost predicate DeliveryExact(w: World, encode: Batch -> Bytes) {
    w.delivered + (if w.retained.Some? then [w.retained.value] else []) == Encoded(w.batches, encode)
  }

  ghost predicate Inv(w: World, encode: Batch -> Bytes) {
    WindowExact(w) && BatchesExact(w) && LogsExact(w) && DeliveryExact(w, encode)
  }

  lemma BatchesSurviveNewDefinitions(w: World, table: seq<Definition>)
    requires BatchesExact(w) && w.meter.definitions <= table
    ensures forall i :: 0 <= i < |w.batches| ==> Shows(w.batches[i], w.windows[i], table)
  {
    forall i | 0 <= i < |w.batches| ensures Shows(w.batches[i], w.windows[i], table) {
      ShowsSurvivesNewDefinitions(w.batches[i], w.windows[i], w.meter.definitions, table);
    }
  }

  lemma DeclareKeepsInv(w: World, kind: nat, name: string, description: string, unit: string, encode: Batch -> Bytes)
    requires Inv(w, encode)
    ensures Inv(AddDefinition(w, kind, name, description, unit), encode)
  {
    DeclaringKeepsTheIndex(w.meter, kind, name, description, unit);
    BatchesSurviveNewDefinitions(w, Declared(w.meter, kind, name, description, unit).definitions);
  }

  lemma RecordKeepsWindow(w: World, sample: Sample, encode: Batch -> Bytes)
    requires WindowExact(w) && Enabled(w, Record(sample))
    ensures WindowExact(AddSample(w, sample))
  {
    RecordingSlidesTheWindow(w.meter, w.window, sample);
    assert w.recorded + [sample] == Joined(w.windows) + (w.window + [sample]);
  }

  lemma RecordKeepsInv(w: World, sample: Sample, encode: Batch -> Bytes)
    requires Inv(w, encode) && Enabled(w, Record(sample))
    ensures Inv(AddSample(w, sample), encode)
  {
    RecordKeepsWindow(w, sample, encode);
    assert AddSample(w, sample).meter.definitions == w.meter.definitions;
  }

  lemma JoinedGrows<T>(parts: seq<seq<T>>, last: seq<T>)
    ensures Joined(parts + [last]) == Joined(parts) + last
  {
    assert (parts + [last])[..|parts|] == parts;
  }

  lemma LastOfNothing<T>(n: nat)
    ensures LastOf<T>([], n) == []
  {
  }

  /** A new window joins on to what was recorded. */
  lemma RecordedSplits(recorded: seq<Sample>, windows: seq<seq<Sample>>, window: seq<Sample>)
    requires recorded == Joined(windows) + window
    ensures recorded == Joined(windows + [window]) + []
  {
    JoinedGrows(windows, window);
  }

  lemma DrainStartsAWindow(w: World, coreLogs: seq<Bytes>, encode: Batch -> Bytes)
    requires WindowExact(w) && w.retained.None?
    ensures WindowExact(Fetch(w, coreLogs, encode))
  {
    LastOfNothing<Sample>(MAX_UPDATES);
    RecordedSplits(w.recorded, w.windows, w.window);
  }

  lemma DrainAddsItsBatch(w: World, coreLogs: seq<Bytes>, encode: Batch -> Bytes)
    requires WindowExact(w) && BatchesExact(w) && w.retained.None?
    ensures BatchesExact(Fetch(w, coreLogs, encode))
  {
    DrainShowsTheWindow(w.meter, w.window, coreLogs);
  }

  lemma {:induction false} LinesAfterWarning(before: seq<LogRecord>, coreLogs: seq<Bytes>)
    ensures var logs := before + seq(|coreLogs|, i requires 0 <= i < |coreLogs| => CoreLog(coreLogs[i]));
            LinesIn(logs) == LinesIn(before) + coreLogs
    decreases |coreLogs|
  {
    var lines := seq(|coreLogs|, i requires 0 <= i < |coreLogs| => CoreLog(coreLogs[i]));
    if coreLogs == [] {
      assert before + lines == before;
    } else {
      var n := |coreLogs| - 1;
      LinesAfterWarning(before, coreLogs[..n]);
      var fewer := seq(n, i requires 0 <= i < n => CoreLog(coreLogs[..n][i]));
      assert (before + lines)[..|before| + n] == before + fewer;
      assert coreLogs == coreLogs[..n] + [coreLogs[n]];
    }
  }

  lemma DrainShowsTheLogs(m: Meter, window: seq<Sample>, coreLogs: seq<Bytes>)
    requires m.updates == LastOf(window, MAX_UPDATES) && m.dropped + |m.updates| == |window|
    ensures LogsShow(WithLogs(DrainedBatch(m), coreLogs).logs, window, coreLogs)
  {
    LinesAfterWarning(Warnings(m.dropped), coreLogs);
    assert LinesIn(Warnings(m.dropped)) == [];
  }

  lemma DrainKeepsLogs(w: World, coreLogs: seq<Bytes>, encode: Batch -> Bytes)
    requires WindowExact(w) && LogsExact(w) && w.retained.None?
    ensures LogsExact(Fetch(w, coreLogs, encode))
  {
    var w' := Fetch(w, coreLogs, encode);
    DrainShowsTheLogs(w.meter, w.window, coreLogs);
    JoinedGrows(w.fetched, coreLogs);
    assert w'.batches[..|w.batches|] == w.batches;
  }

  lemma FetchKeepsInv(w: World, coreLogs: seq<Bytes>, encode: Batch -> Bytes)
    requires Inv(w, encode)
    ensures Inv(Fetch(w, coreLogs, encode), encode)
  {
    if w.retained.None? {
      DrainStartsAWindow(w, coreLogs, encode);
      DrainAddsItsBatch(w, coreLogs, encode);
      DrainKeepsLogs(w, coreLogs, encode);
      assert Fetch(w, coreLogs, encode).batches[..|w.batches|] == w.batches;
    }
  }

  lemma CopyKeepsInv(w: World, outNull: bool, cap: nat, lenNull: bool, encode: Batch -> Bytes)
    requires Inv(w, encode) && w.retained.Some?
    ensures Inv(CopyOut(w, outNull, cap, lenNull), encode)
  {
    var answer := WriteOutcome(w.retained.value, outNull, cap, lenNull).result;
    if answer.Ok? {
      assert answer.value == w.retained.value;
      assert (w.delivered + [answer.value]) + [] == w.delivered + [answer.value];
    }
  }

  lemma StepKeepsInv(w: World, step: Step, encode: Batch -> Bytes)
    requires Inv(w, encode) && Enabled(w, step)
    ensures Inv(Do(w, step, encode), encode)
  {
    match step
    case Declare(kind, name, description, unit) => DeclareKeepsInv(w, kind, name, description, unit, encode);
    case Record(sample) => RecordKeepsInv(w, sample, encode);
    case Retrieve(outNull, cap, lenNull, coreLogs) =>
      FetchKeepsInv(w, coreLogs, encode);
      CopyKeepsInv(Fetch(w, coreLogs, encode), outNull, cap, lenNull, encode);
  }

  ghost predicate Linked(run: seq<World>, steps: seq<Step>, encode: Batch -> Bytes, k: nat)
    requires k < |steps| && |run| == |steps| + 1
  {
    Enabled(run[k], steps[k]) && run[k + 1] == Do(run[k], steps[k], encode)
  }

  ghost predicate IsRun(run: seq<World>, steps: seq<Step>, encode: Batch -> Bytes) {
    |run| == |steps| + 1 && run[0] == START && forall k: nat :: k < |steps| ==> Linked(run, steps, encode, k)
  }

  lemma EmptyMeterIsIndexed(m: Meter)
    requires m.instruments == map[] && m.definitions == []
    ensures Indexed(m)
  {
  }

  lemma EmptyWindowIsExact(w: World)
    requires w.meter.instruments == map[] && w.meter.definitions == [] && w.meter.updates == [] && w.meter.dropped == 0
    requires w.window == [] && w.windows == [] && w.recorded == []
    ensures WindowExact(w)
  {
    EmptyMeterIsIndexed(w.meter);
    LastOfNothing<Sample>(MAX_UPDATES);
    assert Joined(w.windows) == [];
  }

  lemma StartIsExact(w: World, encode: Batch -> Bytes)
    requires w == START
    ensures Inv(w, encode)
  {
    EmptyWindowIsExact(w);
    assert Encoded(w.batches, encode) == [] && AllLines(w.batches) == [] && Joined(w.fetched) == [];
  }

  /**
   In every reachable state: the drained windows and the current one are all samples ever recorded, in
   order; each drain showed exactly the end of its window, its definitions, its drop count and the lines
   Core gave up to it; and the readers got every batch once, in drain order, except the one still retained.
   */
  lemma {:induction false} RunsAreExact(states: seq<World>, steps: seq<Step>, encode: Batch -> Bytes, k: nat)
    requires IsRun(states, steps, encode) && k < |states|
    ensures Inv(states[k], encode)
  {
    if k == 0 {
      StartIsExact(states[0], encode);
    } else {
      RunsAreExact(states, steps, encode, k - 1);
      assert Linked(states, steps, encode, k - 1);
      StepKeepsInv(states[k - 1], steps[k - 1], encode);
    }
  }

  /** A batch that did not reach its reader is kept as it is until a call whose buffer is big enough. */
  lemma {:induction false} RetainedUntilCopied(
      states: seq<World>, steps: seq<Step>, encode: Batch -> Bytes, from: nat, k: nat, bytes: Bytes)
    requires IsRun(states, steps, encode) && from <= k < |states| && states[from].retained == Some(bytes)
    requires forall i :: from <= i < k && steps[i].Retrieve? ==> steps[i].lenNull || steps[i].outNull || steps[i].cap < |bytes|
    requires bytes != []
    ensures states[k].retained == Some(bytes) && states[k].batches == states[from].batches
    ensures states[k].delivered == states[from].delivered
  {
    if k != from {
      RetainedUntilCopied(states, steps, encode, from, k - 1, bytes);
      assert Linked(states, steps, encode, k - 1);
    }
  }

  function SamplesIn(steps: seq<Step>): seq<Sample> {
    if steps == [] then []
    else
      var last := steps[|steps| - 1];
      SamplesIn(steps[..|steps| - 1]) + if last.Record? then [last.sample] else []
  }

  lemma {:induction false} EverySampleIsRecorded(states: seq<World>, steps: seq<Step>, encode: Batch -> Bytes, k: nat)
    requires IsRun(states, steps, encode) && k < |states|
    ensures states[k].recorded == SamplesIn(steps[..k])
  {
    if k > 0 {
      EverySampleIsRecorded(states, steps, encode, k - 1);
      assert Linked(states, steps, encode, k - 1);
      assert steps[..k][..k - 1] == steps[..k - 1];
    }
  }

  /** A call whose pointers and buffer are good for `bytes`. */
  predicate Fits(step: Step, bytes: Bytes) {
    step.Retrieve? && !step.lenNull && |bytes| <= step.cap && (bytes == [] || !step.outNull)
  }

  /** What a call offers is the newest batch: the retained one, or the one it drains. */
  lemma FetchOffersTheNewest(w: World, coreLogs: seq<Bytes>, encode: Batch -> Bytes)
    requires DeliveryExact(w, encode)
    ensures var f := Fetch(w, coreLogs, encode);
            && |f.batches| == |w.batches| + (if w.retained.None? then 1 else 0) && f.batches != []
            && f.retained == Some(encode(f.batches[|f.batches| - 1])) && f.delivered == w.delivered
  {
    if w.retained.Some? {
      var shown := Encoded(w.batches, encode);
      assert shown[|w.delivered|] == w.retained.value;
    }
  }

  /**
   A call drains a new batch exactly when none is retained; it hands over the batch at hand exactly when
   its buffer is good for it, and that batch stays retained otherwise.
   */
  lemma RetrieveDeliversIff(states: seq<World>, steps: seq<Step>, encode: Batch -> Bytes, k: nat)
    requires IsRun(states, steps, encode) && k < |steps| && steps[k].Retrieve?
    ensures |states[k + 1].batches| == |states[k].batches| + (if states[k].retained.None? then 1 else 0)
    ensures states[k + 1].batches != []
    ensures var bytes := encode(states[k + 1].batches[|states[k + 1].batches| - 1]);
            if Fits(steps[k], bytes)
            then states[k + 1].delivered == states[k].delivered + [bytes] && states[k + 1].retained == None
            else states[k + 1].delivered == states[k].delivered && states[k + 1].retained == Some(bytes)
  {
    RunsAreExact(states, steps, encode, k);
    assert Linked(states, steps, encode, k);
    FetchOffersTheNewest(states[k], steps[k].coreLogs, encode);
  }

  // ---------------------------------------------------------------------------------------------
  // Definitions

  predicate Declares(step: Step, name: string, kind: nat) {
    step.Declare? && step.name == name && step.kind == kind
  }

  /** Description and unit of the first declaration of an instrument. */
  function FirstDeclared(steps: seq<Step>, name: string, kind: nat): Option<(string, string)> {
    if steps == [] then None
    else
      var earlier := FirstDeclared(steps[..|steps| - 1], name, kind);
      var last := steps[|steps| - 1];
      if earlier.None? && Declares(last, name, kind) then Some((last.description, last.unit)) else earlier
  }

  /** An instrument exists once it has been declared, with the description and unit of its first declaration. */
  ghost predicate DeclaredFirst(m: Meter, steps: seq<Step>, name: string, kind: nat) {
    match FirstDeclared(steps, name, kind)
    case None => (name, kind) !in m.instruments
    case Some(first) =>
      && (name, kind) in m.instruments && 1 <= m.instruments[(name, kind)] <= |m.definitions|
      && var d := m.definitions[m.instruments[(name, kind)] - 1];
         d == Definition(m.instruments[(name, kind)], name, first.0, first.1, kind)
  }

  lemma StepKeepsDeclared(w: World, step: Step, encode: Batch -> Bytes, steps: seq<Step>, name: string, kind: nat)
    requires Indexed(w.meter) && DeclaredFirst(w.meter, steps, name, kind)
    ensures DeclaredFirst(Do(w, step, encode).meter, steps + [step], name, kind)
  {
    assert (steps + [step])[..|steps|] == steps;
  }

  lemma {:induction false} FirstDeclarationStays(
      states: seq<World>, steps: seq<Step>, encode: Batch -> Bytes, k: nat, name: string, kind: nat)
    requires IsRun(states, steps, encode) && k < |states|
    ensures DeclaredFirst(states[k].meter, steps[..k], name, kind)
  {
    if k > 0 {
      FirstDeclarationStays(states, steps, encode, k - 1, name, kind);
      RunsAreExact(states, steps, encode, k - 1);
      assert Linked(states, steps, encode, k - 1);
      StepKeepsDeclared(states[k - 1], steps[k - 1], encode, steps[..k - 1], name, kind);
      assert steps[..k] == steps[..k - 1] + [steps[k - 1]];
    }
  }

  // ---------------------------------------------------------------------------------------------
  // Attributes

  function Without(kvs: seq<Attribute>, key: string): seq<Attribute> {
    if kvs == [] then []
    else (if kvs[0].key == key then [] else [kvs[0]]) + Without(kvs[1..], key)
  }

  function Extended(kvs: seq<Attribute>, more: seq<Attribute>): seq<Attribute> {
    if more == [] then kvs
    else
      var last := more[|more| - 1];
      Without(Extended(kvs, more[..|more| - 1]), last.key) + [last]
  }

  /** The value of the first attribute with `key`. */
  function ValueOf(kvs: seq<Attribute>, key: string): Option<Value> {
    if kvs == [] then None else if kvs[0].key == key then Some(kvs[0].value) else ValueOf(kvs[1..], key)
  }

  function LastWrite(more: seq<Attribute>, key: string): Option<Value> {
    if more == [] then None
    else
      var last := more[|more| - 1];
      if last.key == key then Some(last.value) else LastWrite(more[..|more| - 1], key)
  }

  ghost predicate KeysDiffer(kvs: seq<Attribute>) {
    forall i, j :: 0 <= i < j < |kvs| ==> kvs[i].key != kvs[j].key
  }

  lemma {:induction false} WithoutDropsOneKey(kvs: seq<Attribute>, key: string, other: string)
    ensures ValueOf(Without(kvs, key), other) == if other == key then None else ValueOf(kvs, other)
  {
    if kvs != [] {
      WithoutDropsOneKey(kvs[1..], key, other);
      if kvs[0].key != key {
        assert Without(kvs, key)[1..] == Without(kvs[1..], key);
      } else {
        assert Without(kvs, key) == Without(kvs[1..], key);
      }
    }
  }

  lemma {:induction false} WithoutKeepsTheRest(kvs: seq<Attribute>, key: string)
    ensures forall a :: a in Without(kvs, key) <==> a in kvs && a.key != key
    ensures KeysDiffer(kvs) ==> KeysDiffer(Without(kvs, key))
  {
    if kvs != [] {
      WithoutKeepsTheRest(kvs[1..], key);
      var rest := Without(kvs[1..], key);
      assert KeysDiffer(kvs) ==> KeysDiffer(kvs[1..]);
      assert forall a :: a in kvs <==> a == kvs[0] || a in kvs[1..];
      assert forall i :: 0 <= i < |rest| ==> rest[i] in kvs[1..];
    }
  }

  lemma {:induction false} ValueAtEnd(kvs: seq<Attribute>, last: Attribute, key: string)
    ensures ValueOf(kvs + [last], key) ==
            if ValueOf(kvs, key).Some? then ValueOf(kvs, key) else if last.key == key then Some(last.value) else None
  {
    if kvs == [] {
      assert ([] + [last])[1..] == [];
    } else {
      ValueAtEnd(kvs[1..], last, key);
      assert (kvs + [last])[1..] == kvs[1..] + [last];
    }
  }

  lemma {:induction false} ExtendingKeepsKeysApart(kvs: seq<Attribute>, more: seq<Attribute>)
    requires KeysDiffer(kvs)
    ensures KeysDiffer(Extended(kvs, more))
  {
    if more != [] {
      var earlier := Extended(kvs, more[..|more| - 1]);
      ExtendingKeepsKeysApart(kvs, more[..|more| - 1]);
      var kept := Without(earlier, more[|more| - 1].key);
      WithoutKeepsTheRest(earlier, more[|more| - 1].key);
      assert forall i :: 0 <= i < |kept| ==> kept[i] in kept;
    }
  }

  lemma {:induction false} LastWriteIsFound(kvs: seq<Attribute>, more: seq<Attribute>, key: string)
    ensures ValueOf(Extended(kvs, more), key) ==
            if LastWrite(more, key).Some? then LastWrite(more, key) else ValueOf(kvs, key)
  {
    if more != [] {
      var last := more[|more| - 1];
      var earlier := Extended(kvs, more[..|more| - 1]);
      LastWriteIsFound(kvs, more[..|more| - 1], key);
      WithoutDropsOneKey(earlier, last.key, key);
      ValueAtEnd(Without(earlier, last.key), last, key);
    }
  }

  /** The last write of a key wins, untouched keys keep their value, and no key appears twice. */
  lemma LastWriteWins(kvs: seq<Attribute>, more: seq<Attribute>, key: string)
    ensures ValueOf(Extended(kvs, more), key) ==
            if LastWrite(more, key).Some? then LastWrite(more, key) else ValueOf(kvs, key)
    ensures KeysDiffer(kvs) ==> KeysDiffer(Extended(kvs, more))
  {
    LastWriteIsFound(kvs, more, key);
    if KeysDiffer(kvs) { ExtendingKeepsKeysApart(kvs, more); }
  }

  method ExtendAttributes(existing: seq<Attribute>, attributes: seq<Attribute>) returns (kvs: seq<Attribute>)
    ensures kvs == Extended(existing, attributes)
  {
    kvs := existing;
    for i := 0 to |attributes|
      invariant kvs == Extended(existing, attributes[..i])
    {
      assert attributes[..i + 1][..i] == attributes[..i];
      kvs := Without(kvs, attributes[i].key);
      kvs := kvs + [attributes[i]];
    }
    assert attributes[..|attributes|] == attributes;
  }

  // ---------------------------------------------------------------------------------------------
  // The meter and the retained batch as the source updates them

  lemma AddOne(samples: seq<Sample>, i: nat)
    requires i < |samples|
    ensures InstrumentsOf(samples[..i + 1]) == InstrumentsOf(samples[..i]) + {samples[i].instrument}
  {
    var longer, shorter := samples[..i + 1], samples[..i];
    forall id | id in InstrumentsOf(longer) ensures id in InstrumentsOf(shorter) + {samples[i].instrument} {
      var k :| 0 <= k < |longer| && longer[k].instrument == id;
      assert k < i ==> shorter[k] == longer[k];
    }
    forall id | id in InstrumentsOf(shorter) + {samples[i].instrument} ensures id in InstrumentsOf(longer) {
      if id == samples[i].instrument {
        assert longer[i].instrument == id;
      } else {
        var k :| 0 <= k < |shorter| && shorter[k].instrument == id;
        assert longer[k] == shorter[k];
      }
    }
  }

  class BridgeMeter {
    var instruments: map<(string, nat), nat>
    var definitions: seq<Definition>
    var updates: seq<Sample>
    var dropped: nat

    ghost function View(): Meter
      reads this
    {
      Meter(instruments, definitions, updates, dropped)
    }

    constructor ()
      ensures View() == NEW_METER
    {
      instruments := map[];
      definitions := [];
      updates := [];
      dropped := 0;
    }

    method Instrument(kind: nat, name: string, description: string, unit: string) returns (id: nat)
      requires Indexed(View())
      modifies this
      ensures View() == Declared(old(View()), kind, name, description, unit) && Indexed(View())
      ensures 1 <= id <= |definitions| && definitions[id - 1].name == name && definitions[id - 1].kind == kind
      ensures (name, kind) in old(instruments) ==> id == old(instruments)[(name, kind)]
    {
      DeclaringKeepsTheIndex(View(), kind, name, description, unit);
      if (name, kind) in instruments {
        id := instruments[(name, kind)];
        assert KeyPoints(instruments, definitions, (name, kind));
      } else {
        id := |definitions| + 1;
        definitions := definitions + [Definition(id, name, description, unit, kind)];
        instruments := instruments[(name, kind) := id];
      }
    }

    method Record(sample: Sample)
      modifies this
      ensures View() == Recorded(old(View()), sample)
    {
      if |updates| == MAX_UPDATES {
        updates := updates[1..];
        dropped := dropped + 1;
      }
      updates := updates + [sample];
    }

    method Drain() returns (batch: Batch)
      requires Indexed(View()) && Named(updates, |definitions|)
      modifies this
      ensures batch == DrainedBatch(old(View())) && View() == Emptied(old(View()))
    {
      var samples := updates;
      updates := [];
      var ids: set<nat> := {};
      for i := 0 to |samples|
        invariant ids == InstrumentsOf(samples[..i])
        modifies {}
      {
        assert samples[..i + 1] == samples[..i] + [samples[i]];
        ids := ids + {samples[i].instrument};
        AddOne(samples, i);
      }
      assert samples[..|samples|] == samples;
      var selected: seq<Definition> := [];
      for id := 1 to |definitions| + 1
        invariant selected == Used(definitions[..id - 1], ids)
        modifies {}
      {
        assert definitions[..id][..id - 1] == definitions[..id - 1];
        if id in ids {
          selected := selected + [definitions[id - 1]];
        }
      }
      assert definitions[..|definitions|] == definitions;
      batch := Batch(selected, samples, Warnings(dropped));
      dropped := 0;
    }
  }

  /** Copies into the caller's buffer in place; null pointers are null arrays here. */
  method WriteOut(src: Bytes, out: array?<byte>, cap: nat, outLen: array?<nat>) returns (answer: Result<Bytes>)
    requires out != null ==> out.Length >= cap
    requires outLen != null ==> outLen.Length == 1
    modifies out, outLen
    ensures answer.Ok? <==> outLen != null && |src| <= cap && (src == [] || out != null)
    ensures answer == Err(BufferTooSmall) <==> outLen != null && |src| > cap
    ensures var w := WriteOutcome(src, out == null, cap, outLen == null);
            && answer == w.result
            && (outLen != null ==> outLen[0] == w.length.value)
            && (out != null && answer.Ok? ==> out[..|src|] == src && out[|src|..] == old(out[|src|..]))
            && (out != null && answer.Err? ==> out[..] == old(out[..]))
  {
    if outLen == null {
      return Err(InvalidArgument);
    }
    outLen[0] := |src| % TWO_32;
    if |src| > cap {
      return Err(BufferTooSmall);
    }
    if src != [] {
      if out == null {
        return Err(InvalidArgument);
      }
      var i := 0;
      while i < |src|
        invariant i <= |src| && out[..i] == src[..i]
        invariant out[|src|..] == old(out[|src|..]) && outLen[0] == |src| % TWO_32
      {
        out[i] := src[i];
        i := i + 1;
      }
    }
    answer := Ok(src);
  }

  /** A signed 32-bit reading of an unsigned 32-bit value. */
  function AsInt(u: nat): int
    requires u < TWO_32
  {
    if u < TWO_31 then u else u - TWO_32
  }

  class RuntimeMetrics {
    const meter: BridgeMeter
    const encode: Batch -> Bytes
    var metricBatch: Option<Bytes>

    constructor (meter: BridgeMeter, encode: Batch -> Bytes)
      ensures this.meter == meter && this.encode == encode && metricBatch == None
    {
      this.meter := meter;
      this.encode := encode;
      metricBatch := None;
    }

    ghost predicate Valid()
      reads this, meter
    {
      Indexed(meter.View()) && Named(meter.updates, |meter.definitions|)
    }

    /** The bytes the next call will offer. */
    ghost function Offered(coreLogs: seq<Bytes>): Bytes
      reads this, meter
    {
      if metricBatch.Some? then metricBatch.value else encode(WithLogs(DrainedBatch(meter.View()), coreLogs))
    }

    method RetrieveMetrics(out: array?<byte>, cap: nat, outLen: array?<nat>, coreLogs: seq<Bytes>)
      returns (answer: Result<Bytes>)
      requires Valid()
      requires out != null ==> out.Length >= cap
      requires outLen != null ==> outLen.Length == 1
      modifies this, meter, out, outLen
      ensures Valid()
      ensures var bytes := old(Offered(coreLogs));
              var w := WriteOutcome(bytes, out == null, cap, outLen == null);
              && answer == w.result
              && (outLen != null ==> outLen[0] == w.length.value)
              && (out != null && answer.Ok? ==> out[..|bytes|] == bytes)
              && metricBatch == (if answer.Ok? then None else Some(bytes))
      ensures meter.View() == if old(metricBatch).Some? then old(meter.View()) else Emptied(old(meter.View()))
    {
      if metricBatch.None? {
        var batch := meter.Drain();
        metricBatch := Some(encode(WithLogs(batch, coreLogs)));
      }
      answer := WriteOut(metricBatch.value, out, cap, outLen);
      if answer.Ok? {
        metricBatch := None;
      }
    }
  }

  /**
   The reader's loop. It always ends within two native calls; it returns the batch exactly when the
   batch is shorter than 2^31 bytes, and otherwise fails and leaves the batch retained.
   */
  method ReadMetrics(rt: RuntimeMetrics, coreLogs: seq<Bytes>) returns (result: Result<Bytes>, calls: nat)
    requires rt.Valid()
    modifies rt, rt.meter
    ensures rt.Valid() && 1 <= calls <= 2
    ensures var bytes := old(rt.Offered(coreLogs));
            && (result.Ok? <==> |bytes| < TWO_31)
            && (result.Ok? ==> result.value == bytes && rt.metricBatch == None)
            && (result.Err? ==> rt.metricBatch == Some(bytes))
            && (calls == 2 <==> |bytes| > 65_536 && AsInt(|bytes| % TWO_32) > 65_536)
    ensures rt.meter.View() == if old(rt.metricBatch).Some? then old(rt.meter.View()) else Emptied(old(rt.meter.View()))
  {
    ghost var bytes := rt.Offered(coreLogs);
    var cap := 65_536;
    calls := 0;
    while true
      invariant rt.Valid() && rt.Offered(coreLogs) == bytes
      invariant 65_536 <= cap < TWO_31 && calls <= 1
      invariant calls == 0 ==> cap == 65_536 && rt.metricBatch == old(rt.metricBatch) && rt.meter.View() == old(rt.meter.View())
      invariant calls == 1 ==>
          && |bytes| > 65_536 && cap == AsInt(|bytes| % TWO_32) > 65_536 && rt.metricBatch == Some(bytes)
          && rt.meter.View() == if old(rt.metricBatch).Some? then old(rt.meter.View()) else Emptied(old(rt.meter.View()))
      decreases 1 - calls
    {
      var out := new byte[cap];
      var outLen := new nat[1];
      var answer := rt.RetrieveMetrics(out, cap, outLen, coreLogs);
      calls := calls + 1;
      var size := AsInt(outLen[0]);
      if answer == Err(BufferTooSmall) {
        if size <= cap {
          return Err(Failed), calls;
        }
        cap := size;
      } else {
        if answer.Err? {
          return answer, calls;
        }
        return Ok(out[..size]), calls;
      }
    }
  }
}
