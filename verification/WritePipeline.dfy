/** The write pipeline of one replica and its disk: incremental writes of what changed, taken while
    the replica goes on, against the whole state they stand for.  Here the log is compacted, and op
    numbers are positions in the log since the beginning. */
module WritePipeline {
  import opened Types

  /** What the owner persists of a replica. */
  datatype Image = Image(view: nat, lastNormal: nat, commit: nat, logStart: nat, log: Log, recovering: bool) {
    function End(): nat { logStart + |log| }

    /** The entry of op `op` is `e`. */
    predicate Holds(op: nat, e: LogEntry) { logStart < op <= End() && log[op - logStart - 1] == e }
  }

  /** What a write carries: the counters, and the entries from `entriesFrom` on. */
  datatype LogWrite = LogWrite(view: nat, lastNormal: nat, recovering: bool, commit: nat, logStart: nat,
                               entriesFrom: nat, entries: Log, sync: bool, op: nat, sequence: nat)

  /** What a write records besides the log, to tell what changed since. */
  datatype Written = Written(view: nat, lastNormal: nat, recovering: bool, logStart: nat)

  /** What the replica remembers of the write it has out. */
  datatype Outstanding = Outstanding(sequence: nat, op: nat, lastNormal: nat)

  const Empty := Image(0, 0, 0, 0, [], false)

  // ---------------------------------------------------------------------------
  // Applying a write

  function Compacted(s: Image, start: nat): Image {
    if start > s.logStart then s.(logStart := start, log := Drop(s.log, start - s.logStart)) else s
  }

  /** The range assertion of `apply`. */
  predicate Applies(s: Image, w: LogWrite) {
    var c := Compacted(s, w.logStart);
    c.logStart + 1 <= w.entriesFrom <= c.End() + 1
  }

  function Applied(s: Image, w: LogWrite): Image
    requires Applies(s, w)
  {
    var c := Compacted(s, w.logStart);
    Image(w.view, w.lastNormal, w.commit, c.logStart, c.log[..w.entriesFrom - c.logStart - 1] + w.entries, w.recovering)
  }

  /** A write that a replica takes whose disk holds `s`: `apply` takes it, it is no further back, and the
      op it says it ends at is where the log then ends. */
  predicate WriteFor(s: Image, w: LogWrite) {
    Applies(s, w) && s.logStart <= w.logStart && w.op == Applied(s, w).End()
  }

  /** A copy of the persisted state that its owner brings up to date in place. */
  class PersistentState {
    var view: nat
    var lastNormal: nat
    var commit: nat
    var logStart: nat
    var log: Log
    var recovering: bool

    function Value(): Image
      reads this
    {
      Image(view, lastNormal, commit, logStart, log, recovering)
    }

    constructor ()
      ensures Value() == Empty
    {
      view, lastNormal, commit, logStart, log, recovering := 0, 0, 0, 0, [], false;
    }

    method Apply(w: LogWrite)
      requires Applies(Value(), w)
      modifies this
      ensures Value() == Applied(old(Value()), w)
    {
      if w.logStart > logStart {
        var dropped := Min(w.logStart - logStart, |log|);
        log := log[dropped..];
        logStart := w.logStart;
      }
      var keep := w.entriesFrom - logStart - 1;
      log := log[..keep];
      log := log + w.entries;
      view, lastNormal, commit, recovering := w.view, w.lastNormal, w.commit, w.recovering;
    }
  }

  // ---------------------------------------------------------------------------
  // What has changed since the last write

  ghost predicate SameUpTo(a: Log, b: Log, k: nat) { k <= |a| && k <= |b| && a[..k] == b[..k] }

  /** What memory has come to since the last write, `last`: entries may be gone from the front, and
      those before the one marked as changed are as they were. */
  ghost predicate Follows(mem: Image, last: Image, changed: Option<nat>) {
    && last.logStart <= mem.logStart
    && match changed
       case None => mem.log == Drop(last.log, mem.logStart - last.logStart)
       case Some(from) =>
         1 <= from <= mem.End() + 1 &&
         SameUpTo(mem.log, Drop(last.log, mem.logStart - last.logStart), Max(0, from - 1 - mem.logStart))
  }

  function EntriesFrom(mem: Image, changed: Option<nat>): nat {
    match changed case None => mem.End() + 1 case Some(from) => Max(from, mem.logStart + 1)
  }

  /** The write of what changed. */
  function WriteOf(mem: Image, changed: Option<nat>, sync: bool, sequence: nat): LogWrite
    requires EntriesFrom(mem, changed) <= mem.End() + 1
  {
    var from := EntriesFrom(mem, changed);
    LogWrite(mem.view, mem.lastNormal, mem.recovering, mem.commit, mem.logStart, from,
             mem.log[from - mem.logStart - 1..], sync, mem.End(), sequence)
  }

  function WrittenOf(s: Image): Written { Written(s.view, s.lastNormal, s.recovering, s.logStart) }

  predicate NeedsSync(mem: Image, changed: Option<nat>, written: Option<Written>) {
    changed.Some? || written != Some(WrittenOf(mem))
  }

  /** The incremental write refines the snapshot: its range assertion holds, and applying it to the
      state of the last write, whatever commit number that kept, gives the state now. */
  lemma WriteRefinesSnapshot(mem: Image, last: Image, disk: Image, changed: Option<nat>, sync: bool, sequence: nat)
    requires Follows(mem, last, changed) && disk == last.(commit := disk.commit)
    ensures EntriesFrom(mem, changed) <= mem.End() + 1
    ensures var w := WriteOf(mem, changed, sync, sequence); WriteFor(disk, w) && Applied(disk, w) == mem
  {
    var kept := Drop(last.log, mem.logStart - last.logStart);
    var k := EntriesFrom(mem, changed) - mem.logStart - 1;
    assert Drop(last.log, 0) == last.log;
    assert Compacted(disk, mem.logStart) == disk.(logStart := mem.logStart, log := kept);
    SpliceBack(mem.log, kept, k) by {
      assert SameUpTo(mem.log, kept, k);
    }
  }

  lemma SpliceBack(a: Log, b: Log, k: nat)
    requires SameUpTo(a, b, k)
    ensures b[..k] + a[k..] == a
  {
  }

  /** A write that needs no sync changes nothing but the commit number. */
  lemma SkipLosesCommitOnly(mem: Image, last: Image, disk: Image, changed: Option<nat>, written: Option<Written>)
    requires Follows(mem, last, changed) && disk == last.(commit := disk.commit) && written == Some(WrittenOf(last))
    requires !NeedsSync(mem, changed, written)
    ensures disk == mem.(commit := disk.commit)
  {
    assert Drop(last.log, 0) == last.log;
  }

  function MarkChanged(changed: Option<nat>, op: nat): Option<nat> {
    Some(match changed case None => op case Some(from) => Min(from, op))
  }

  /** The log changes from op `op` on, and the change is marked. */
  lemma ChangeFollows(mem: Image, last: Image, changed: Option<nat>, mem': Image, op: nat)
    requires Follows(mem, last, changed) && mem'.logStart == mem.logStart
    requires mem.logStart < op <= mem.End() + 1 && SameUpTo(mem.log, mem'.log, op - 1 - mem.logStart)
    ensures Follows(mem', last, MarkChanged(changed, op))
  {
    var kept := Drop(last.log, mem.logStart - last.logStart);
    var k := Max(0, MarkChanged(changed, op).value - 1 - mem.logStart);
    assert mem'.log[..k] == mem'.log[..op - 1 - mem.logStart][..k] == mem.log[..k];
    if changed.Some? {
      var j := Max(0, changed.value - 1 - mem.logStart);
      assert mem.log[..k] == mem.log[..j][..k] == kept[..j][..k] == kept[..k];
    }
  }

  lemma CompactFollows(mem: Image, last: Image, changed: Option<nat>, start: nat)
    requires Follows(mem, last, changed) && mem.logStart <= start <= mem.End()
    ensures Follows(mem.(logStart := start, log := mem.log[start - mem.logStart..]), last, changed)
  {
    var kept := Drop(last.log, mem.logStart - last.logStart);
    var kept' := Drop(last.log, start - last.logStart);
    var n := start - mem.logStart;
    if changed.Some? && changed.value - 1 > start {
      var k := changed.value - 1 - mem.logStart;
      assert kept' == kept[n..];
      assert kept'[..k - n] == kept[..k][n..] == mem.log[..k][n..] == mem.log[n..][..k - n];
    }
  }

  /** The log starts over after op `start`. */
  lemma RestoreFollows(mem: Image, last: Image, changed: Option<nat>, start: nat)
    requires Follows(mem, last, changed) && mem.logStart <= start
    ensures Follows(mem.(logStart := start, log := []), last, MarkChanged(changed, start + 1))
  {
  }

  // ---------------------------------------------------------------------------
  // What the disk holds

  function DurableUpTo(durable: nat, changed: Option<nat>): int {
    match changed case None => durable case Some(from) => Min(durable, from - 1)
  }

  /** The entries up to `durable` are on disk as the last write has them. */
  ghost predicate DurableOk(durable: nat, last: Image, disk: Image) {
    forall op: nat, e {:trigger last.Holds(op, e)} :: op <= durable && last.Holds(op, e) ==> disk.Holds(op, e)
  }

  /** The op that memory holds, the last write holds as well, if the change mark is after it. */
  lemma FollowsHolds(mem: Image, last: Image, changed: Option<nat>, op: nat, e: LogEntry)
    requires Follows(mem, last, changed) && mem.Holds(op, e) && (changed.Some? ==> op < changed.value)
    ensures last.Holds(op, e)
  {
    var kept := Drop(last.log, mem.logStart - last.logStart);
    var k := op - mem.logStart;
    if changed.Some? {
      var j := Max(0, changed.value - 1 - mem.logStart);
      assert mem.log[k - 1] == mem.log[..j][k - 1] == kept[..j][k - 1];
    }
    assert kept[k - 1] == last.log[op - last.logStart - 1];
  }

  /** What counts as durable is on disk as memory has it, and still is once a write is taken. */
  lemma DurableHolds(mem: Image, last: Image, disk: Image, changed: Option<nat>, durable: nat, op: nat, e: LogEntry)
    requires Follows(mem, last, changed) && DurableOk(durable, last, disk)
    requires mem.Holds(op, e) && op <= DurableUpTo(durable, changed)
    ensures last.Holds(op, e) && disk.Holds(op, e)
  {
    hide Follows;
    FollowsHolds(mem, last, changed, op, e);
  }

  /** Op `op` executed, as `e`. */
  predicate Ran(sm: Log, op: nat, e: LogEntry) { 1 <= op <= |sm| && sm[op - 1] == e }

  /** Executed ops are flushed with the state machine, or on disk with and without the write that is out. */
  ghost predicate ExecutedOk(flushed: nat, sm: Log, last: Image, disk: Image) {
    forall op: nat, e {:trigger Ran(sm, op, e)} :: op > flushed && Ran(sm, op, e) ==> last.Holds(op, e) && disk.Holds(op, e)
  }

  /** What executed is what the log holds, as far as it reaches back. */
  ghost predicate MemoryOk(mem: Image, flushed: nat, sm: Log) {
    && mem.logStart <= flushed <= |sm| <= mem.commit <= mem.End()
    && mem.log[..|sm| - mem.logStart] == sm[mem.logStart..]
  }

  /** The write that is out, if any, takes the disk to the state of the last write taken, and would if
      it was skipped but for the commit number. */
  ghost predicate OutOk(last: Image, disk: Image, out: Option<LogWrite>) {
    match out
    case None => disk == last.(commit := disk.commit)
    case Some(w) => WriteFor(disk, w) && Applied(disk, w) == last && (!w.sync ==> disk == last.(commit := disk.commit))
  }

  /** An image that a replica may restart from. */
  ghost predicate ImageOk(s: Image, flushed: nat) {
    s.logStart <= flushed && s.commit <= s.End() && (s.recovering ==> s.log == [])
  }

  /** What executed since the log starts, the log holds. */
  lemma RanHolds(mem: Image, flushed: nat, sm: Log, op: nat, e: LogEntry)
    requires MemoryOk(mem, flushed, sm) && Ran(sm, op, e) && op > mem.logStart
    ensures mem.Holds(op, e)
  {
    var k := op - mem.logStart - 1;
    assert mem.log[k] == mem.log[..|sm| - mem.logStart][k] == sm[mem.logStart..][k];
  }

  /** The next op executes, once it is durable. */
  lemma ExecuteNext(mem: Image, last: Image, disk: Image, changed: Option<nat>, durable: nat, flushed: nat, sm: Log, e: LogEntry)
    requires MemoryOk(mem, flushed, sm) && |sm| < mem.commit && e == mem.log[|sm| - mem.logStart]
    requires Follows(mem, last, changed) && DurableOk(durable, last, disk) && |sm| < DurableUpTo(durable, changed)
    requires ExecutedOk(flushed, sm, last, disk)
    ensures MemoryOk(mem, flushed, sm + [e]) && ExecutedOk(flushed, sm + [e], last, disk)
  {
    assert mem.Holds(|sm| + 1, e);
    DurableHolds(mem, last, disk, changed, durable, |sm| + 1, e);
    hide Follows, DurableOk;
    forall op: nat, x | op > flushed && Ran(sm + [e], op, x)
      ensures last.Holds(op, x) && disk.Holds(op, x)
    {
      assert op <= |sm| ==> Ran(sm, op, x);
    }
    assert mem.log[..|sm| + 1 - mem.logStart] == mem.log[..|sm| - mem.logStart] + [e];
    assert (sm + [e])[mem.logStart..] == sm[mem.logStart..] + [e];
  }

  /** What the disk holds as memory does, when a write is taken. */
  lemma TakenHolds(mem: Image, last: Image, disk: Image, changed: Option<nat>, durable: nat, flushed: nat, sm: Log)
    requires MemoryOk(mem, flushed, sm) && Follows(mem, last, changed) && DurableOk(durable, last, disk)
    requires ExecutedOk(flushed, sm, last, disk)
    ensures DurableOk(Max(0, DurableUpTo(durable, changed)), mem, disk)
    ensures ExecutedOk(flushed, sm, mem, disk)
  {
    forall op: nat, e | op <= Max(0, DurableUpTo(durable, changed)) && mem.Holds(op, e)
      ensures disk.Holds(op, e)
    {
      DurableHolds(mem, last, disk, changed, durable, op, e);
    }
    forall op: nat, e | op > flushed && Ran(sm, op, e)
      ensures mem.Holds(op, e)
    {
      RanHolds(mem, flushed, sm, op, e);
    }
  }

  lemma CompactMemory(mem: Image, flushed: nat, sm: Log, start: nat)
    requires MemoryOk(mem, flushed, sm) && mem.logStart <= start <= flushed
    ensures MemoryOk(mem.(logStart := start, log := mem.log[start - mem.logStart..]), flushed, sm)
  {
    var n := start - mem.logStart;
    assert mem.log[n..][..|sm| - start] == mem.log[..|sm| - mem.logStart][n..];
    assert sm[start..] == sm[mem.logStart..][n..];
  }

  /** A log that keeps its committed entries keeps what executed. */
  lemma ChangeMemory(mem: Image, flushed: nat, sm: Log, log': Log, k: nat)
    requires MemoryOk(mem, flushed, sm) && SameUpTo(mem.log, log', k) && mem.commit <= mem.logStart + k
    ensures MemoryOk(mem.(log := log'), flushed, sm)
  {
    var n := |sm| - mem.logStart;
    assert log'[..n] == log'[..k][..n] == mem.log[..k][..n] == mem.log[..n];
  }

  // ---------------------------------------------------------------------------
  // What is committed

  /** The ops the replica knows to be committed: those executed, and the log's up to the commit number. */
  function CommittedOps(mem: Image, sm: Log): (ops: Log)
    requires mem.logStart <= |sm| <= mem.commit <= mem.End()
    ensures |ops| == mem.commit
  {
    sm + mem.log[|sm| - mem.logStart..mem.commit - mem.logStart]
  }

  /** What an image has as committed, `ops` has as well. */
  ghost predicate CommittedOk(s: Image, ops: Log) {
    s.commit <= |ops| && forall op: nat, e {:trigger s.Holds(op, e)} :: op <= s.commit && s.Holds(op, e) ==> Ran(ops, op, e)
  }

  lemma CommittedGrows(s: Image, ops: Log, ops': Log)
    requires CommittedOk(s, ops) && ops <= ops'
    ensures CommittedOk(s, ops')
  {
    forall op: nat, e | op <= s.commit && s.Holds(op, e)
      ensures Ran(ops', op, e)
    {
      assert Ran(ops, op, e);
    }
  }

  lemma MemoryCommitted(mem: Image, flushed: nat, sm: Log)
    requires MemoryOk(mem, flushed, sm)
    ensures CommittedOk(mem, CommittedOps(mem, sm))
  {
    forall op: nat, e | op <= mem.commit && mem.Holds(op, e)
      ensures Ran(CommittedOps(mem, sm), op, e)
    {
      var k := op - mem.logStart - 1;
      if op <= |sm| {
        assert mem.log[..|sm| - mem.logStart][k] == sm[mem.logStart..][k];
      }
    }
  }

  lemma CompactCommitted(mem: Image, flushed: nat, sm: Log, start: nat)
    requires MemoryOk(mem, flushed, sm) && mem.logStart <= start <= flushed
    ensures CommittedOps(mem.(logStart := start, log := mem.log[start - mem.logStart..]), sm) == CommittedOps(mem, sm)
  {
    var n := start - mem.logStart;
    SliceOfRest(mem.log, n, |sm| - mem.logStart, mem.commit - mem.logStart);
  }

  lemma SliceOfRest(log: Log, n: nat, from: nat, to: nat)
    requires n <= from <= to <= |log|
    ensures log[n..][from - n..to - n] == log[from..to]
  {
  }

  lemma ChangeCommitted(mem: Image, flushed: nat, sm: Log, log': Log, k: nat)
    requires MemoryOk(mem, flushed, sm) && SameUpTo(mem.log, log', k) && mem.commit <= mem.logStart + k
    ensures CommittedOps(mem.(log := log'), sm) == CommittedOps(mem, sm)
  {
    SameSlice(mem.log, log', k, |sm| - mem.logStart, mem.commit - mem.logStart);
  }

  lemma ExecuteCommitted(mem: Image, flushed: nat, sm: Log, e: LogEntry)
    requires MemoryOk(mem, flushed, sm) && |sm| < mem.commit && e == mem.log[|sm| - mem.logStart]
    ensures CommittedOps(mem, sm + [e]) == CommittedOps(mem, sm)
  {
  }

  lemma CommitMore(mem: Image, flushed: nat, sm: Log, commit: nat)
    requires MemoryOk(mem, flushed, sm) && mem.commit <= commit <= mem.End()
    ensures MemoryOk(mem.(commit := commit), flushed, sm)
    ensures CommittedOps(mem, sm) <= CommittedOps(mem.(commit := commit), sm)
  {
  }

  // ---------------------------------------------------------------------------
  // Restarting

  /** The replica's memory as rebuilt from its disk and a state machine that holds the first
      `flushed` ops: entries the state machine covers beyond the commit number give way to it. */
  function Rebuilt(disk: Image, flushed: nat): Image {
    if disk.recovering then Image(disk.view, 0, flushed, flushed, [], true)
    else if flushed > disk.commit then Compacted(disk, flushed).(commit := flushed)
    else disk
  }

  /** The fields of a replica that comes back are the disk's, but where the state machine holds more than
      the disk has as committed, or the replica was still recovering. */
  ghost predicate RebuiltFrom(mem: Image, disk: Image, flushed: nat) {
    && mem.view == disk.view && mem.recovering == disk.recovering
    && mem.lastNormal == (if disk.recovering then 0 else disk.lastNormal)
    && mem.commit == (if disk.recovering then flushed else Max(disk.commit, flushed))
    && (disk.recovering ==> mem.log == [])
    && (!disk.recovering ==> forall op: nat, e {:trigger mem.Holds(op, e)} {:trigger disk.Holds(op, e)} ::
          op > flushed ==> (mem.Holds(op, e) <==> disk.Holds(op, e)))
  }

  lemma RebuiltIs(disk: Image, flushed: nat)
    requires ImageOk(disk, flushed)
    ensures RebuiltFrom(Rebuilt(disk, flushed), disk, flushed)
  {
    assert Drop(disk.log, 0) == disk.log;
  }

  /** More than the commit number or the log's entries has changed. */
  predicate Differs(mem: Image, last: Image) {
    mem.view != last.view || mem.lastNormal != last.lastNormal || mem.recovering != last.recovering || mem.logStart != last.logStart
  }

  lemma SyncMeans(s: State)
    requires Ok(s)
    ensures NeedsSync(s.mem, s.changed, s.written) == (s.changed.Some? || s.written.None? || Differs(s.mem, s.last))
    ensures EntriesFrom(s.mem, s.changed) == if s.changed.Some? then Max(s.changed.value, s.mem.logStart + 1) else s.mem.End() + 1
  {
    hide MemoryOk, Follows, OutOk, DurableOk, ExecutedOk, CommittedOk, ImageOk;
  }

  /** What is committed of a log that has not changed since the last write is durable once that lands, and
      of one that has what is before the change. */
  lemma DurableAfter(mem: Image, last: Image, changed: Option<nat>, flushed: nat, sm: Log)
    requires MemoryOk(mem, flushed, sm) && Follows(mem, last, changed)
    ensures changed.None? ==> Max(|sm|, Min(mem.commit, DurableUpTo(last.End(), changed))) == mem.commit
    ensures changed.Some? ==> Max(|sm|, Min(mem.commit, DurableUpTo(last.End(), changed))) >= Min(mem.commit, changed.value - 1)
  {
  }

  lemma OnwardPart(s: State)
    requires Ok(s)
    ensures s.disk.view <= s.last.view <= s.mem.view
  {
  }

  lemma RebuiltOk(disk: Image, flushed: nat, sm: Log, ops: Log)
    requires ImageOk(disk, flushed) && |sm| == flushed && sm <= ops && CommittedOk(disk, ops)
    ensures MemoryOk(Rebuilt(disk, flushed), flushed, sm)
    ensures Follows(Rebuilt(disk, flushed), disk, None)
  {
    assert Drop(disk.log, 0) == disk.log;
    if !disk.recovering && flushed <= disk.commit {
      forall k | 0 <= k < flushed - disk.logStart
        ensures disk.log[k] == sm[disk.logStart..][k]
      {
        assert disk.Holds(disk.logStart + k + 1, disk.log[k]);
      }
      assert disk.log[..flushed - disk.logStart] == sm[disk.logStart..];
    }
  }

  /** A restart knows nothing as committed that was not, and nothing the disk has as committed is lost. */
  lemma RebuiltCommitted(disk: Image, flushed: nat, sm: Log, ops: Log)
    requires ImageOk(disk, flushed) && |sm| == flushed && sm <= ops && CommittedOk(disk, ops)
    requires MemoryOk(Rebuilt(disk, flushed), flushed, sm)
    ensures CommittedOps(Rebuilt(disk, flushed), sm) <= ops
    ensures !disk.recovering ==> CommittedOk(disk, CommittedOps(Rebuilt(disk, flushed), sm))
  {
    var ops' := CommittedOps(Rebuilt(disk, flushed), sm);
    forall k | 0 <= k < |ops'|
      ensures ops'[k] == ops[k]
    {
      if k >= flushed {
        assert disk.Holds(k + 1, ops'[k]);
      }
    }
    forall op: nat, e | op <= disk.commit && disk.Holds(op, e) && !disk.recovering
      ensures Ran(ops', op, e)
    {
      assert Ran(ops, op, e);
    }
  }

  // ---------------------------------------------------------------------------
  // The replica and its disk

  /** A replica and its disk: memory, the state machine, the pipeline, the write that is out, the whole
      state as of the last write taken, and the disk. */
  datatype State = State(mem: Image, sm: Log, flushed: nat, serving: Option<nat>,
                         changed: Option<nat>, durable: nat, written: Option<Written>, outstanding: Option<Outstanding>,
                         out: Option<LogWrite>, last: Image, disk: Image)

  /** Views go on from the disk to the last write taken, and from that to memory. */
  ghost predicate OnwardOk(mem: Image, last: Image, disk: Image) { disk.view <= last.view <= mem.view }

  ghost predicate PipelineOk(written: Option<Written>, outstanding: Option<Outstanding>, out: Option<LogWrite>, last: Image) {
    && (written.Some? ==> written == Some(WrittenOf(last)))
    && (outstanding.Some? <==> out.Some?)
    && (out.Some? ==> outstanding == Some(Outstanding(out.value.sequence, last.End(), last.lastNormal)))
  }

  /** What every operation keeps. */
  ghost predicate Ok(s: State) {
    && MemoryOk(s.mem, s.flushed, s.sm)
    && Follows(s.mem, s.last, s.changed)
    && PipelineOk(s.written, s.outstanding, s.out, s.last)
    && OnwardOk(s.mem, s.last, s.disk)
    && OutOk(s.last, s.disk, s.out)
    && ImageOk(s.last, s.flushed) && ImageOk(s.disk, s.flushed)
    && DurableOk(s.durable, s.last, s.disk)
    && ExecutedOk(s.flushed, s.sm, s.last, s.disk)
    && CommittedOk(s.last, CommittedOps(s.mem, s.sm)) && CommittedOk(s.disk, CommittedOps(s.mem, s.sm))
    && (s.serving.Some? ==> s.mem.logStart <= s.serving.value <= |s.sm|)
  }

  /** The state once a write is taken. */
  function Taken(s: State, sequence: nat): State
    requires EntriesFrom(s.mem, s.changed) <= s.mem.End() + 1
  {
    s.(durable := Max(0, DurableUpTo(s.durable, s.changed)), changed := None, written := Some(WrittenOf(s.mem)),
       outstanding := Some(Outstanding(sequence, s.mem.End(), s.mem.lastNormal)),
       out := Some(WriteOf(s.mem, s.changed, NeedsSync(s.mem, s.changed, s.written), sequence)), last := s.mem)
  }

  lemma TakeKeeps(s: State, sequence: nat)
    requires Ok(s) && s.out.None? && (s.mem.recovering ==> s.mem.log == [])
    ensures EntriesFrom(s.mem, s.changed) <= s.mem.End() + 1
    ensures var w := WriteOf(s.mem, s.changed, NeedsSync(s.mem, s.changed, s.written), sequence);
            && w.sync == NeedsSync(s.mem, s.changed, s.written) && w.entriesFrom == EntriesFrom(s.mem, s.changed)
            && Ok(Taken(s, sequence)) && WriteFor(s.disk, w) && Applied(s.disk, w) == s.mem
            && (!w.sync ==> s.disk == s.mem.(commit := s.disk.commit))
  {
    hide Follows, OutOk, DurableOk, ExecutedOk, CommittedOk, CommittedOps, ImageOk, MemoryOk, Applied, WriteFor, NeedsSync;
    TakeOk(s.mem, s.last, s.disk, s.changed, s.written, sequence);
    TakenHolds(s.mem, s.last, s.disk, s.changed, s.durable, s.flushed, s.sm);
    TakenImage(s.mem, s.flushed, s.sm);
  }

  /** The state once the write that is out has landed, skipped by the disk or not, before what is durable
      now executes. */
  function Landed(s: State, skip: bool): State {
    s.(out := None, outstanding := None, disk := if skip then s.disk else s.last, durable := s.last.End())
  }

  lemma LandKeeps(s: State, skip: bool)
    requires Ok(s) && s.out.Some? && (skip ==> !s.out.value.sync)
    ensures Ok(Landed(s, skip)) && MemoryOk(s.mem, s.flushed, s.sm)
    ensures Applies(s.disk, s.out.value) && Applied(s.disk, s.out.value) == s.last
    ensures s.outstanding.Some? && s.outstanding.value.op == s.last.End()
    ensures Landed(s, skip).disk == s.last.(commit := Landed(s, skip).disk.commit)
    ensures s.disk.view <= s.last.view && Landed(s, skip).disk.view == s.last.view
  {
    hide Follows, MemoryOk, CommittedOps, Applied, ExecutedOk;
    OutApplies(s.last, s.disk, s.out);
    LandedExecuted(s.flushed, s.sm, s.last, s.disk);
  }

  lemma LandedExecuted(flushed: nat, sm: Log, last: Image, disk: Image)
    requires ExecutedOk(flushed, sm, last, disk)
    ensures ExecutedOk(flushed, sm, last, last)
  {
  }

  lemma DurableAfterLanding(s: State)
    requires Ok(s)
    ensures s.changed.None? ==> Max(|s.sm|, Min(s.mem.commit, DurableUpTo(s.last.End(), s.changed))) == s.mem.commit
    ensures s.changed.Some? ==>
              Max(|s.sm|, Min(s.mem.commit, DurableUpTo(s.last.End(), s.changed))) >= Min(s.mem.commit, s.changed.value - 1)
  {
    hide MemoryOk, Follows, OutOk, DurableOk, ExecutedOk, CommittedOk, ImageOk, CommittedOps;
    DurableAfter(s.mem, s.last, s.changed, s.flushed, s.sm);
  }

  /** The disk as a crash leaves it. */
  function Left(s: State, landed: bool): Image {
    if landed && s.out.Some? then s.last else s.disk
  }

  /** The state of the replica rebuilt, before it executes what is committed. */
  function Restarted(s: State, landed: bool): State {
    var disk := Left(s, landed);
    var mem := Rebuilt(disk, s.flushed);
    State(mem, Take(s.sm, s.flushed), s.flushed, None, None, mem.End(), Some(WrittenOf(disk)), None, None, disk, disk)
  }

  function Take(s: Log, n: nat): Log { if n <= |s| then s[..n] else s }

  lemma RestartKeeps(s: State, landed: bool)
    requires Ok(s)
    ensures Ok(Restarted(s, landed)) && s.sm[..s.flushed] == Take(s.sm, s.flushed)
    ensures CommittedOps(Restarted(s, landed).mem, Restarted(s, landed).sm) <= CommittedOps(s.mem, s.sm)
  {
    hide Follows, OutOk, DurableOk, ExecutedOk, CommittedOk, CommittedOps, ImageOk, Rebuilt;
    var s' := Restarted(s, landed);
    var ops := CommittedOps(s.mem, s.sm);
    var d := LeftOk(s.last, s.disk, s.out, s.flushed, s.sm, s'.durable, landed);
    StatePrefix(s.mem, s.flushed, s.sm);
    RebuiltOk(d, s.flushed, s'.sm, ops);
    RebuiltCommitted(d, s.flushed, s'.sm, ops);
    EmptyCommitted(d, s.flushed, CommittedOps(s'.mem, s'.sm));
    RebuiltIs(d, s.flushed);
  }

  /** The state once a checkpoint of `ops` is restored. */
  function Restored(s: State, ops: Log): State {
    s.(mem := s.mem.(commit := |ops|, logStart := |ops|, log := []), sm := ops, flushed := |ops|, serving := None,
       changed := MarkChanged(s.changed, |ops| + 1))
  }

  lemma RestoreKeeps(s: State, ops: Log)
    requires Ok(s) && |ops| > s.mem.commit && CommittedOps(s.mem, s.sm) <= ops
    ensures Ok(Restored(s, ops)) && CommittedOps(Restored(s, ops).mem, ops) == ops
  {
    hide OutOk, DurableOk, CommittedOk;
    RestoreFollows(s.mem, s.last, s.changed, |ops|);
    CommittedGrows(s.last, CommittedOps(s.mem, s.sm), ops);
    CommittedGrows(s.disk, CommittedOps(s.mem, s.sm), ops);
    assert CommittedOps(Restored(s, ops).mem, ops) == ops;
  }

  /** The state once the log after op `keep` is replaced. */
  function Merged(s: State, keep: nat, entries: Log): State
    requires s.mem.logStart <= keep <= s.mem.End()
  {
    s.(mem := s.mem.(log := s.mem.log[..keep - s.mem.logStart] + entries), changed := MarkChanged(s.changed, keep + 1))
  }

  lemma MergeKeeps(s: State, keep: nat, entries: Log)
    requires Ok(s) && s.mem.commit <= keep <= s.mem.End()
    ensures s.mem.logStart <= keep && Ok(Merged(s, keep, entries))
    ensures CommittedOps(Merged(s, keep, entries).mem, s.sm) == CommittedOps(s.mem, s.sm)
  {
    hide OutOk, DurableOk, ExecutedOk, CommittedOk, ImageOk, CommittedOps;
    assert s.mem.logStart <= keep;
    hide Follows;
    var n := keep - s.mem.logStart;
    var log' := s.mem.log[..n] + entries;
    assert log'[..n] == s.mem.log[..n];
    ChangeFollows(s.mem, s.last, s.changed, s.mem.(log := log'), keep + 1);
    ChangeMemory(s.mem, s.flushed, s.sm, log', n);
    ChangeCommitted(s.mem, s.flushed, s.sm, log', n);
  }

  class Node {
    // Memory.
    var view: nat
    var lastNormal: nat
    var recovering: bool
    var commit: nat
    var logStart: nat
    var log: Log
    // The ops the state machine executed, and how many of them it has flushed.
    var sm: Log
    var flushed: nat
    // The op of the checkpoint kept for replicas that fell behind.
    var serving: Option<nat>
    // The pipeline.
    var changed: Option<nat>
    var durable: nat
    var written: Option<Written>
    var outstanding: Option<Outstanding>
    var writes: nat
    // The owner: its disk, the write that is out, and the whole state as the last write was taken.
    const disk: PersistentState
    var out: Option<LogWrite>
    ghost var last: Image
    // The views of the writes that landed.
    ghost var landedViews: set<nat>

    function Memory(): Image
      reads this
    {
      Image(view, lastNormal, commit, logStart, log, recovering)
    }

    ghost function Abs(): State
      reads this, disk
    {
      State(Memory(), sm, flushed, serving, changed, durable, written, outstanding, out, last, disk.Value())
    }

    ghost predicate Valid()
      reads this, disk
    {
      Ok(Abs()) && LandedOk()
    }

    /** The disk is not behind any write that landed. */
    ghost predicate LandedOk()
      reads this, disk
    {
      forall v {:trigger v in landedViews} :: v in landedViews ==> v <= disk.view
    }

    /** The ops this replica knows to be committed. */
    ghost function Committed(): Log
      requires MemoryOk(Memory(), flushed, sm)
      reads this
    {
      CommittedOps(Memory(), sm)
    }

    /** A new replica with a new disk. */
    constructor ()
      ensures Valid() && Memory() == Empty && disk.Value() == Empty && sm == [] && out.None? && written.None?
      ensures fresh(disk)
    {
      view, lastNormal, recovering, commit, logStart, log := 0, 0, false, 0, 0, [];
      sm, flushed, serving := [], 0, None;
      changed, durable, written, outstanding, writes := None, 0, None, None, 0;
      disk := new PersistentState();
      out := None;
      last, landedViews := Empty, {};
    }

    function DurableOp(): int
      reads this
    {
      DurableUpTo(durable, changed)
    }

    /** Views and status change as the protocol has it, in which memory never goes back a view. */
    method Move(view': nat, lastNormal': nat, recovering': bool)
      requires Valid() && view' >= view
      modifies this`view, this`lastNormal, this`recovering
      ensures Valid()
      ensures Memory() == old(Memory()).(view := view', lastNormal := lastNormal', recovering := recovering')
    {
      hide OutOk, DurableOk, ExecutedOk, CommittedOk, ImageOk;
      view, lastNormal, recovering := view', lastNormal', recovering';
    }

    method AppendToLog(e: LogEntry)
      requires Valid()
      modifies this`log, this`changed
      ensures Valid() && Committed() == old(Committed())
      ensures Memory() == old(Memory()).(log := old(log) + [e])
      ensures changed == Some(if old(changed).Some? then Min(old(changed).value, Memory().End()) else Memory().End())
    {
      hide Follows, OutOk, DurableOk, ExecutedOk, CommittedOk, ImageOk, CommittedOps;
      assert (log + [e])[..|log|] == log;
      ChangeFollows(Memory(), last, changed, Memory().(log := log + [e]), logStart + |log| + 1);
      ChangeMemory(Memory(), flushed, sm, log + [e], |log|);
      ChangeCommitted(Memory(), flushed, sm, log + [e], |log|);
      changed := MarkChanged(changed, logStart + |log| + 1);
      log := log + [e];
    }

    /** Replaces the log after `start` with `entries`, but for what is committed. */
    method MergeLog(start: nat, entries: Log)
      requires Valid() && Max(start, commit) <= Memory().End()
      modifies this`log, this`changed
      ensures Valid() && Committed() == old(Committed())
      ensures var keep := Max(start, commit);
              Memory() == old(Memory()).(log := old(log)[..keep - logStart] + Drop(entries, keep - start)) && DurableOp() <= keep
    {
      hide Ok, MemoryOk, CommittedOps, Drop;
      ghost var s := Abs();
      MemoryPart(s);
      var keep := Max(start, commit);
      var rest := Drop(entries, keep - start);
      MergeKeeps(s, keep, rest);
      ReplaceAfter(keep, rest);
      assert Abs() == Merged(s, keep, rest);
      MemoryPart(Abs());
    }

    method ReplaceAfter(keep: nat, rest: Log)
      requires logStart <= keep <= logStart + |log|
      modifies this`log, this`changed
      ensures log == old(log)[..keep - logStart] + rest && changed == MarkChanged(old(changed), keep + 1) && DurableOp() <= keep
    {
      log := log[..keep - logStart];
      log := log + rest;
      changed := MarkChanged(changed, keep + 1);
    }

    /** Drops the entries up to `op` from memory, as far as no checkpoint kept needs them.  The state
        machine has flushed up to `op`. */
    method Compact(op: nat)
      requires Valid() && op <= flushed
      modifies this`log, this`logStart
      ensures Valid() && Committed() == old(Committed())
      ensures var start := Max(old(logStart), Min(op, if serving.Some? then serving.value else op));
              Memory() == old(Memory()).(logStart := start, log := old(log)[start - old(logStart)..])
    {
      hide Follows, OutOk, DurableOk, ExecutedOk, CommittedOk, ImageOk, CommittedOps;
      var upTo := Min(op, |sm|);
      if serving.Some? {
        upTo := Min(upTo, serving.value);
      }
      if upTo <= logStart {
        return;
      }
      CompactFollows(Memory(), last, changed, upTo);
      CompactMemory(Memory(), flushed, sm, upTo);
      CompactCommitted(Memory(), flushed, sm, upTo);
      log := log[upTo - logStart..];
      logStart := upTo;
    }

    /** A checkpoint of the ops `ops`, more than are committed here, replaces the log.  The state machine
        makes it durable as it restores it.  Both are ops that completed, in one order. */
    method RestoreCheckpoint(ops: Log, ghost completed: Log)
      requires Valid() && |ops| > commit && Committed() <= completed && ops <= completed
      modifies this`commit, this`sm, this`flushed, this`log, this`logStart, this`changed, this`serving
      ensures Valid() && Committed() == sm == ops && flushed == |ops|
      ensures Memory() == old(Memory()).(commit := |ops|, logStart := |ops|, log := [])
    {
      hide Ok, CommittedOps;
      ghost var s := Abs();
      MemoryPart(s);
      assert Committed() <= ops;
      RestoreKeeps(s, ops);
      StartOver(ops);
      assert Abs() == Restored(s, ops);
      MemoryPart(Abs());
    }

    method StartOver(ops: Log)
      modifies this`commit, this`sm, this`flushed, this`log, this`logStart, this`changed, this`serving
      ensures Memory() == old(Memory()).(commit := |ops|, logStart := |ops|, log := []) && sm == ops && flushed == |ops|
      ensures serving.None? && changed == MarkChanged(old(changed), |ops| + 1)
    {
      serving := None;
      commit := |ops|;
      sm, flushed := ops, |ops|;
      logStart := |ops|;
      log := [];
      changed := MarkChanged(changed, logStart + 1);
    }

    /** Executes the committed entries up to `op`, which the disk holds as memory does. */
    method ApplyCommitted(op: int)
      requires Valid() && op <= DurableOp()
      modifies this`sm
      ensures Valid() && Committed() == old(Committed())
      ensures |sm| == Max(|old(sm)|, Min(commit, op)) && old(sm) <= sm
    {
      hide Follows, OutOk, DurableOk, ExecutedOk, CommittedOk, ImageOk, CommittedOps;
      while |sm| < Min(commit, op)
        invariant Valid() && old(sm) <= sm && Committed() == old(Committed())
        invariant |sm| <= Max(|old(sm)|, Min(commit, op))
      {
        var e := log[|sm| - logStart];
        ExecuteNext(Memory(), last, disk.Value(), changed, durable, flushed, sm, e);
        ExecuteCommitted(Memory(), flushed, sm, e);
        sm := sm + [e];
      }
    }

    method CommitUpTo(commit': nat)
      requires Valid() && commit' <= Memory().End()
      modifies this`commit, this`sm
      ensures Valid() && old(Committed()) <= Committed()
      ensures Memory() == old(Memory()).(commit := Max(old(commit), commit')) && old(sm) <= sm
      ensures |sm| == if commit' > old(commit) then Max(|old(sm)|, Min(commit', DurableOp())) else |old(sm)|
    {
      hide Follows, OutOk, DurableOk, ExecutedOk, CommittedOk, ImageOk, CommittedOps;
      if commit' <= commit {
        return;
      }
      CommitMore(Memory(), flushed, sm, commit');
      CommittedGrows(last, Committed(), CommittedOps(Memory().(commit := commit'), sm));
      CommittedGrows(disk.Value(), Committed(), CommittedOps(Memory().(commit := commit'), sm));
      commit := commit';
      assert Follows(Memory(), last, changed) by {
        SameFollows(old(Memory()), Memory(), last, changed);
      }
      ApplyCommitted(DurableOp());
    }

    /** Takes the write of what changed.  Between steps a recovering replica holds no entries. */
    method TakeWrite() returns (w: LogWrite)
      requires Valid() && outstanding.None? && (recovering ==> log == [])
      modifies this`durable, this`changed, this`written, this`writes, this`outstanding, this`out, this`last
      ensures Valid() && out == Some(w) && last == Memory() && changed.None?
      ensures WriteFor(disk.Value(), w) && Applied(disk.Value(), w) == Memory()
      ensures !w.sync ==> disk.Value() == Memory().(commit := disk.Value().commit)
      ensures w.entriesFrom == if old(changed).Some? then Max(old(changed).value, logStart + 1) else Memory().End() + 1
      ensures w.sync == (old(changed).Some? || old(written).None? || Differs(Memory(), old(last)))
    {
      hide Ok, NeedsSync, Differs, Applied, WriteFor, WriteOf, EntriesFrom;
      ghost var s := Abs();
      NoWriteOut(s);
      SyncMeans(s);
      TakeKeeps(s, writes + 1);
      var mem := Memory();
      w := WriteOf(mem, changed, NeedsSync(mem, changed, written), writes + 1);
      HandOut(w, mem);
      assert Abs() == Taken(s, writes);
    }

    method HandOut(w: LogWrite, mem: Image)
      modifies this`durable, this`changed, this`written, this`writes, this`outstanding, this`out, this`last
      ensures durable == Max(0, old(DurableOp())) && changed.None? && written == Some(WrittenOf(mem)) && writes == old(writes) + 1
      ensures outstanding == Some(Outstanding(writes, mem.End(), mem.lastNormal)) && out == Some(w) && last == mem
    {
      durable := Max(0, DurableOp());
      changed := None;
      written := Some(WrittenOf(mem));
      writes := writes + 1;
      outstanding := Some(Outstanding(writes, mem.End(), mem.lastNormal));
      out := Some(w);
      last := mem;
    }

    /** The write that is out lands and goes back to the replica.  One that needs no sync may be skipped. */
    method Land(skip: bool)
      requires Valid() && out.Some? && (skip ==> !out.value.sync)
      modifies this`out, this`outstanding, this`durable, this`sm, this`landedViews, disk
      ensures landedViews == old(landedViews) + {last.view}
      ensures old(changed).None? ==> |sm| == commit
      ensures old(changed).Some? ==> |sm| >= Min(commit, old(changed).value - 1)
      ensures Valid() && out.None? && outstanding.None? && Committed() == old(Committed())
      ensures disk.Value() == last.(commit := disk.Value().commit)
      ensures disk.Value() == if skip then old(disk.Value()) else last
      ensures old(sm) <= sm && |sm| == Max(|old(sm)|, Min(commit, DurableOp())) && durable == last.End()
    {
      hide Ok, Applied, WriteFor, CommittedOps, MemoryOk;
      ghost var s := Abs();
      LandKeeps(s, skip);
      DurableAfterLanding(s);
      if !skip {
        disk.Apply(out.value);
      }
      out, landedViews := None, landedViews + {last.view};
      durable := outstanding.value.op;
      outstanding := None;
      assert Abs() == Landed(s, skip);
      MemoryPart(Abs());
      ApplyCommitted(DurableOp());
    }

    /** The state machine writes what it executed to disk. */
    method Flush()
      requires Valid()
      modifies this`flushed
      ensures Valid() && flushed == |sm|
    {
      hide Follows, OutOk, DurableOk, CommittedOk, CommittedOps;
      flushed := |sm|;
    }

    /** Power is lost, the write that is out lands whole or not at all, and the replica is rebuilt from
        its disk and the state machine's last flush. */
    method CrashAndRestart(landed: bool)
      requires Valid()
      modifies this, disk
      ensures Valid() && out.None? && changed.None?
      ensures landedViews == old(landedViews) + (if landed && old(out).Some? then {old(last).view} else {})
      ensures forall v :: v in landedViews ==> v <= view
      ensures RebuiltFrom(Memory(), disk.Value(), flushed)
      ensures disk.Value() == if landed && old(out).Some? then old(last) else old(disk.Value())
      ensures flushed == old(flushed) && old(sm)[..flushed] <= sm
      ensures Memory() == Rebuilt(disk.Value(), flushed) && Committed() <= old(Committed())
      ensures |sm| == commit
    {
      hide Ok, Applied, WriteFor, CommittedOps, Rebuilt, OutOk;
      ghost var s := Abs();
      RestartKeeps(s, landed);
      MemoryPart(s);
      OutApplies(last, disk.Value(), out);
      LeftParts(s, landed);
      RebuiltIs(Left(s, landed), flushed);
      OnwardPart(s);
      if landed && out.Some? {
        landedViews := landedViews + {last.view};
        disk.Apply(out.value);
      }
      Rebuild();
      assert Abs() == Restarted(s, landed);
      MemoryPart(Abs());
      ApplyCommitted(durable);
    }

    method Rebuild()
      requires ImageOk(disk.Value(), flushed) && flushed <= |sm|
      modifies this
      ensures flushed == old(flushed) && sm == old(sm)[..flushed] && landedViews == old(landedViews)
      ensures Memory() == Rebuilt(disk.Value(), flushed) && durable == Memory().End()
      ensures out.None? && outstanding.None? && changed.None? && serving.None? && last == disk.Value()
      ensures written == Some(WrittenOf(disk.Value()))
    {
      hide Rebuilt, ImageOk;
      RebuildMemory();
      Reset();
      durable := logStart + |log|;
    }

    method Reset()
      requires flushed <= |sm|
      modifies this`out, this`outstanding, this`changed, this`serving, this`written, this`last, this`sm
      ensures out.None? && outstanding.None? && changed.None? && serving.None? && last == disk.Value()
      ensures written == Some(WrittenOf(disk.Value())) && sm == old(sm)[..flushed]
    {
      out, outstanding, changed, serving := None, None, None, None;
      written, last := Some(WrittenOf(disk.Value())), disk.Value();
      sm := sm[..flushed];
    }

    method RebuildMemory()
      requires ImageOk(disk.Value(), flushed)
      modifies this`view, this`lastNormal, this`recovering, this`commit, this`logStart, this`log
      ensures Memory() == Rebuilt(disk.Value(), flushed)
    {
      view, lastNormal, recovering := disk.view, disk.lastNormal, disk.recovering;
      if disk.recovering {
        lastNormal, commit, logStart, log := 0, flushed, flushed, [];
      } else if flushed > disk.commit {
        logStart, commit := flushed, flushed;
        log := disk.log[Min(flushed - disk.logStart, |disk.log|)..];
      } else {
        logStart, commit, log := disk.logStart, disk.commit, disk.log;
      }
    }

    /** The log after `op`, or after the checkpoint kept where that is compacted: `at` is the checkpoint
        the state machine takes if none is kept.  Either way no op is missing between the two. */
    method SegmentFrom(op: nat, at: nat) returns (base: nat, checkpoint: bool, entries: Log)
      requires Valid() && op <= Memory().End() && logStart <= at <= |sm|
      modifies this`serving
      ensures Valid() && Committed() == old(Committed())
      ensures logStart <= base <= Memory().End() && entries == log[base - logStart..]
      ensures checkpoint <==> op < logStart
      ensures !checkpoint ==> base == op && serving == old(serving)
      ensures checkpoint ==> serving == Some(base) && base <= |sm| && (old(serving).Some? ==> serving == old(serving))
      ensures checkpoint ==> sm[..base] + entries[..commit - base] == Committed()
    {
      hide Follows, OutOk, DurableOk, ExecutedOk, CommittedOk, ImageOk;
      if op >= logStart {
        return op, false, log[op - logStart..];
      }
      if serving.None? {
        serving := Some(at);
      }
      base, checkpoint := serving.value, true;
      entries := log[base - logStart..];
      CheckpointCovers(Memory(), flushed, sm, base);
    }
  }

  lemma SameFollows(mem: Image, mem': Image, last: Image, changed: Option<nat>)
    requires Follows(mem, last, changed) && mem'.logStart == mem.logStart && mem'.log == mem.log
    ensures Follows(mem', last, changed)
  {
  }

  /** The write taken, over the disk with no write out. */
  lemma TakeOk(mem: Image, last: Image, disk: Image, changed: Option<nat>, written: Option<Written>, sequence: nat)
    requires Follows(mem, last, changed) && OutOk(last, disk, None) && (written.Some? ==> written == Some(WrittenOf(last)))
    ensures EntriesFrom(mem, changed) <= mem.End() + 1
    ensures var w := WriteOf(mem, changed, NeedsSync(mem, changed, written), sequence);
            && w.sync == NeedsSync(mem, changed, written) && w.sequence == sequence
            && WriteFor(disk, w) && Applied(disk, w) == mem && OutOk(mem, disk, Some(w))
            && (!w.sync ==> disk == mem.(commit := disk.commit))
  {
    hide Follows, Applied, WriteFor;
    WriteRefinesSnapshot(mem, last, disk, changed, NeedsSync(mem, changed, written), sequence);
    if !NeedsSync(mem, changed, written) {
      SkipLosesCommitOnly(mem, last, disk, changed, written);
    }
  }

  lemma TakenImage(mem: Image, flushed: nat, sm: Log)
    requires MemoryOk(mem, flushed, sm) && (mem.recovering ==> mem.log == [])
    ensures Follows(mem, mem, None) && ImageOk(mem, flushed) && CommittedOk(mem, CommittedOps(mem, sm))
  {
    hide CommittedOk;
    MemoryCommitted(mem, flushed, sm);
  }

  /** The disk as a crash leaves it is one of the two images a restart is ready for. */
  lemma LeftOk(last: Image, disk: Image, out: Option<LogWrite>, flushed: nat, sm: Log, durable: nat, landed: bool) returns (d: Image)
    requires OutOk(last, disk, out) && ImageOk(last, flushed) && ImageOk(disk, flushed) && ExecutedOk(flushed, sm, last, disk)
    ensures d == if landed && out.Some? then last else disk
    ensures ImageOk(d, flushed) && OutOk(d, d, None) && DurableOk(durable, d, d)
    ensures flushed <= |sm| ==> ExecutedOk(flushed, sm[..flushed], d, d)
  {
    d := if landed && out.Some? then last else disk;
  }

  lemma StatePrefix(mem: Image, flushed: nat, sm: Log)
    requires MemoryOk(mem, flushed, sm)
    ensures sm[..flushed] <= CommittedOps(mem, sm)
  {
  }

  lemma MemoryPart(s: State)
    requires Ok(s)
    ensures MemoryOk(s.mem, s.flushed, s.sm) && OutOk(s.last, s.disk, s.out)
  {
  }

  lemma NoWriteOut(s: State)
    requires Ok(s)
    ensures s.outstanding.Some? <==> s.out.Some?
  {
  }

  lemma LeftParts(s: State, landed: bool)
    requires Ok(s)
    ensures ImageOk(Left(s, landed), s.flushed)
  {
  }

  lemma OutApplies(last: Image, disk: Image, out: Option<LogWrite>)
    requires OutOk(last, disk, out)
    ensures out.Some? ==> Applies(disk, out.value) && WriteFor(disk, out.value) && Applied(disk, out.value) == last
  {
  }

  lemma EmptyCommitted(disk: Image, flushed: nat, ops: Log)
    requires ImageOk(disk, flushed) && flushed <= |ops| && (!disk.recovering ==> CommittedOk(disk, ops))
    ensures CommittedOk(disk, ops)
  {
  }

  /** A checkpoint and the entries after it make up what is committed. */
  lemma CheckpointCovers(mem: Image, flushed: nat, sm: Log, base: nat)
    requires MemoryOk(mem, flushed, sm) && mem.logStart <= base <= |sm|
    ensures sm[..base] + mem.log[base - mem.logStart..][..mem.commit - base] == CommittedOps(mem, sm)
  {
    var a, b, c := base - mem.logStart, |sm| - mem.logStart, mem.commit - mem.logStart;
    assert mem.log[a..][..mem.commit - base] == mem.log[a..b] + mem.log[b..c];
    assert mem.log[a..b] == mem.log[..b][a..] == sm[mem.logStart..][a..] == sm[base..];
  }

  // ---------------------------------------------------------------------------
  // What a restart comes back with

  /** A replica that was normal comes back with the log its disk held, and so with what it acknowledged
      in its view, exactly when the state machine's flush does not pass the end of that log. */
  lemma ResumesItsLog(disk: Image, flushed: nat)
    requires ImageOk(disk, flushed) && !disk.recovering
    ensures Rebuilt(disk, flushed).End() == disk.End() <==> flushed <= disk.End()
    ensures forall op: nat, e :: Rebuilt(disk, flushed).Holds(op, e) ==> disk.Holds(op, e)
    ensures flushed <= disk.End() ==> forall op: nat, e :: op > flushed && disk.Holds(op, e) ==> Rebuilt(disk, flushed).Holds(op, e)
  {
    assert Drop(disk.log, 0) == disk.log;
  }

  /** The flush does pass it after a checkpoint restored in a step whose write the crash cut off: the
      replica resumes the view of its disk, but at an op number it never acknowledged there. */
  method RestoreThenCrash(ops: Log) returns (n: Node)
    requires |ops| > 0
    ensures fresh(n) && n.Valid() && n.disk.Value() == Empty
    ensures n.Memory() == Empty.(commit := |ops|, logStart := |ops|) && n.sm == ops
  {
    hide Ok, MemoryOk, CommittedOps, Rebuilt;
    n := new Node();
    MemoryPart(n.Abs());
    NothingCommitted();
    n.RestoreCheckpoint(ops, ops);
    assert n.sm[..n.flushed] == ops;
    RebuiltFromNothing(|ops|);
    n.CrashAndRestart(false);
  }

  lemma NothingCommitted()
    ensures CommittedOps(Empty, []) == []
  {
  }

  lemma RebuiltFromNothing(flushed: nat)
    requires flushed > 0
    ensures Rebuilt(Empty, flushed) == Empty.(commit := flushed, logStart := flushed)
  {
  }
}
