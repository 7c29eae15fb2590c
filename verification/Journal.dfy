/** The kvstore's journal: a replica's writes as records of a write-ahead log, an index of the files
    that hold the entries a replay needs, and the deletion of the files before them. */
module Journal {
  import opened Types
  import opened WritePipeline

  /** A write as a record of the log, and the file it is in. */
  datatype Record = Record(file: nat, write: LogWrite)

  /** An entry as read back, and the file it came from. */
  datatype Stored = Stored(entry: LogEntry, file: nat)

  type Entries = map<nat, Stored>

  // ---------------------------------------------------------------------------
  // Replaying

  /** The entries a write carries, by op number. */
  function Carried(w: LogWrite, file: nat): Entries {
    map op: nat | op < w.entriesFrom + |w.entries| && Carries(w, op) :: Stored(w.entries[op - w.entriesFrom], file)
  }

  predicate Carries(w: LogWrite, op: nat) { w.entriesFrom <= op < w.entriesFrom + |w.entries| }

  /** What is compacted or replaced goes, and what the write carries comes. */
  function Replayed(entries: Entries, r: Record): Entries {
    (map op | op in entries && r.write.logStart < op < r.write.entriesFrom :: entries[op]) + Carried(r.write, r.file)
  }

  function Replay(records: seq<Record>): Entries {
    if records == [] then map[] else Replayed(Replay(records[..|records| - 1]), records[|records| - 1])
  }

  /** The records are writes in order, the files no older with each. */
  ghost predicate InSequence(records: seq<Record>) {
    && (forall i, j :: 0 <= i < j < |records| ==> records[i].file <= records[j].file)
    && (forall i {:trigger records[i]} :: 0 <= i < |records| ==> Folds(records[..i]) && WriteFor(Fold(records[..i]), records[i].write))
  }

  /** Whether `apply` takes the writes one after the other, from a new replica's state. */
  predicate Folds(records: seq<Record>)
    decreases |records|, 0
  {
    records == [] || (Folds(records[..|records| - 1]) && Applies(Fold(records[..|records| - 1]), records[|records| - 1].write))
  }

  /** The state all writes come to. */
  function Fold(records: seq<Record>): Image
    requires Folds(records)
    decreases |records|, 1
  {
    if records == [] then Empty else Applied(Fold(records[..|records| - 1]), records[|records| - 1].write)
  }

  /** The entries are those of the log of `s`. */
  ghost predicate Holding(entries: Entries, s: Image) {
    && (forall op {:trigger op in entries} :: op in entries <==> s.logStart < op <= s.End())
    && (forall op {:trigger entries[op]} :: op in entries ==> entries[op].entry == s.log[op - s.logStart - 1])
  }

  lemma AppliedShape(s: Image, w: LogWrite)
    requires WriteFor(s, w)
    ensures var s' := Applied(s, w);
            && s'.logStart == w.logStart < w.entriesFrom && s'.End() == w.entriesFrom + |w.entries| - 1
            && (w.entriesFrom <= s.End() + 1 || w.entriesFrom == w.logStart + 1)
  {
  }

  lemma AppliedKeeps(s: Image, w: LogWrite, op: nat)
    requires WriteFor(s, w) && w.logStart < op < w.entriesFrom
    ensures s.logStart < op <= s.End() && op <= Applied(s, w).End()
    ensures Applied(s, w).log[op - w.logStart - 1] == s.log[op - s.logStart - 1]
  {
    var c := Compacted(s, w.logStart);
    assert c.log[op - w.logStart - 1] == s.log[op - s.logStart - 1];
  }

  lemma AppliedCarries(s: Image, w: LogWrite, op: nat)
    requires WriteFor(s, w) && Carries(w, op)
    ensures w.logStart < op <= Applied(s, w).End() && Applied(s, w).log[op - w.logStart - 1] == w.entries[op - w.entriesFrom]
  {
  }

  lemma ReplayedHolds(entries: Entries, s: Image, r: Record)
    requires Holding(entries, s) && WriteFor(s, r.write)
    ensures Holding(Replayed(entries, r), Applied(s, r.write))
  {
    var w, s', entries' := r.write, Applied(s, r.write), Replayed(entries, r);
    AppliedShape(s, w);
    hide Applied, WriteFor;
    forall op: nat
      ensures op in entries' <==> s'.logStart < op <= s'.End()
      ensures op in entries' ==> entries'[op].entry == s'.log[op - s'.logStart - 1]
    {
      if w.logStart < op < w.entriesFrom {
        AppliedKeeps(s, w, op);
        assert op in entries && !Carries(w, op);
      } else if Carries(w, op) {
        AppliedCarries(s, w, op);
      }
    }
  }

  /** Replaying every write gives the log that applying every write does. */
  lemma {:induction false} ReplayHolds(records: seq<Record>)
    requires InSequence(records)
    ensures Folds(records) && Holding(Replay(records), Fold(records))
  {
    if records != [] {
      var rest, r := records[..|records| - 1], records[|records| - 1];
      WrittenPrefix(records, |records| - 1);
      ReplayHolds(rest);
      ReplayedHolds(Replay(rest), Fold(rest), r);
    }
  }

  lemma WrittenPrefix(records: seq<Record>, k: nat)
    requires InSequence(records) && k <= |records|
    ensures InSequence(records[..k])
  {
    forall i | 0 <= i < k
      ensures Folds(records[..k][..i]) && WriteFor(Fold(records[..k][..i]), records[..k][i].write)
    {
      assert records[..k][..i] == records[..i];
      assert records[..k][i] == records[i];
    }
  }

  // ---------------------------------------------------------------------------
  // Replaying what is left

  /** What is left once the files before `t` are deleted. */
  function Trimmed(records: seq<Record>, t: nat): seq<Record> {
    if records == [] then [] else if records[0].file >= t then records else Trimmed(records[1..], t)
  }

  /** What `part` has, `all` has, and what `all` has from file `t` on, `part` has. */
  ghost predicate PartOf(part: Entries, all: Entries, t: nat) {
    && (forall op {:trigger op in part} :: op in part ==> op in all && all[op] == part[op])
    && (forall op {:trigger op in all} :: op in all && all[op].file >= t ==> op in part)
  }

  lemma PartReplayed(part: Entries, all: Entries, t: nat, r: Record)
    requires PartOf(part, all, t)
    ensures PartOf(Replayed(part, r), Replayed(all, r), t)
  {
  }

  /** The files that hold the entries so far come no later than the last record's. */
  lemma {:induction false} FilesBefore(records: seq<Record>, f: nat)
    requires forall i {:trigger records[i]} :: 0 <= i < |records| ==> records[i].file < f
    ensures forall op {:trigger Replay(records)[op]} :: op in Replay(records) ==> Replay(records)[op].file < f
  {
    if records != [] {
      FilesBefore(records[..|records| - 1], f);
    }
  }

  lemma {:induction false} PartOfSuffix(records: seq<Record>, k: nat, t: nat)
    requires k <= |records| && forall i {:trigger records[i]} :: 0 <= i < k ==> records[i].file < t
    ensures PartOf(Replay(records[k..]), Replay(records), t)
    decreases |records|
  {
    if k == |records| {
      FilesBefore(records, t);
    } else {
      var n := |records| - 1;
      assert records[..n][k..] == records[k..][..|records[k..]| - 1];
      PartOfSuffix(records[..n], k, t);
      PartReplayed(Replay(records[..n][k..]), Replay(records[..n]), t, records[n]);
    }
  }

  lemma {:induction false} TrimmedIsSuffix(records: seq<Record>, t: nat) returns (k: nat)
    ensures k <= |records| && Trimmed(records, t) == records[k..]
    ensures forall i {:trigger records[i]} :: 0 <= i < k ==> records[i].file < t
    ensures k < |records| ==> records[k].file >= t
  {
    if records == [] || records[0].file >= t {
      k := 0;
    } else {
      k := TrimmedIsSuffix(records[1..], t);
      k := k + 1;
    }
  }

  /** Trimming is safe: with every entry needed in a file from `t` on, what is left replays to the same. */
  lemma TrimmedReplays(records: seq<Record>, t: nat)
    requires forall op {:trigger Replay(records)[op]} :: op in Replay(records) ==> Replay(records)[op].file >= t
    ensures Replay(Trimmed(records, t)) == Replay(records)
  {
    var k := TrimmedIsSuffix(records, t);
    PartOfSuffix(records, k, t);
  }

  /** Trimming again what was trimmed. */
  lemma {:induction false} TrimmedTwice(records: seq<Record>, t: nat, u: nat)
    requires t <= u
    ensures Trimmed(Trimmed(records, t), u) == Trimmed(records, u)
  {
    if records != [] && records[0].file < t {
      TrimmedTwice(records[1..], t, u);
    }
  }

  // ---------------------------------------------------------------------------
  // The index of runs

  /** The run of op `op`: the last that starts at or before it. */
  ghost predicate Covers(runs: map<nat, nat>, k: nat, op: nat) {
    k in runs && k <= op && forall j {:trigger j in runs} :: j in runs && j <= op ==> j <= k
  }

  ghost predicate Indexed(runs: map<nat, nat>, op: nat, file: nat) {
    exists k: nat :: Covers(runs, k, op) && runs[k] == file
  }

  /** The index names the file of every entry, and each run starts with one. */
  ghost predicate RunsOk(runs: map<nat, nat>, entries: Entries) {
    && (forall op {:trigger entries[op]} :: op in entries ==> Indexed(runs, op, entries[op].file))
    && (forall k {:trigger k in runs} :: k in runs ==> k in entries)
  }

  /** Files never decrease with op numbers. */
  ghost predicate FilesOrdered(entries: Entries) {
    forall a, b {:trigger entries[a], entries[b]} :: a in entries && b in entries && a <= b ==> entries[a].file <= entries[b].file
  }

  ghost predicate FilesUpTo(entries: Entries, file: nat) {
    forall op {:trigger entries[op]} :: op in entries ==> entries[op].file <= file
  }

  ghost predicate FilesFrom(entries: Entries, file: nat) {
    forall op {:trigger entries[op]} :: op in entries ==> entries[op].file >= file
  }

  function Below(runs: map<nat, nat>, k: nat): map<nat, nat> { map op | op in runs && op < k :: runs[op] }

  function From(runs: map<nat, nat>, k: nat): map<nat, nat> { map op | op in runs && op >= k :: runs[op] }

  /** The key of the last run at or before `op`. */
  method Covering(runs: map<nat, nat>, op: nat) returns (key: Option<nat>)
    ensures key.Some? ==> Covers(runs, key.value, op)
    ensures key.None? ==> forall k {:trigger k in runs} :: k in runs ==> k > op
  {
    key := None;
    var rest := runs.Keys;
    while rest != {}
      invariant rest <= runs.Keys
      invariant key.Some? ==> key.value in runs && key.value <= op
      invariant forall k {:trigger k in runs} :: k in runs && k !in rest && k <= op ==> key.Some? && k <= key.value
      decreases |rest|
    {
      var k :| k in rest;
      rest := rest - {k};
      if k <= op && (key.None? || key.value < k) {
        key := Some(k);
      }
    }
  }

  method FirstRun(runs: map<nat, nat>) returns (key: nat)
    requires runs != map[]
    ensures key in runs && forall k {:trigger k in runs} :: k in runs ==> key <= k
  {
    key :| key in runs.Keys;
    var rest := runs.Keys;
    while rest != {}
      invariant rest <= runs.Keys && key in runs
      invariant forall k {:trigger k in runs} :: k in runs && k !in rest ==> key <= k
      decreases |rest|
    {
      var k :| k in rest;
      rest := rest - {k};
      if k < key {
        key := k;
      }
    }
  }

  /** The index with the write's run, and the compacted ones out: the run that covers the first entry
      retained now starts with it. */
  function Reindexed(runs: map<nat, nat>, w: LogWrite, file: nat, covering: Option<nat>): map<nat, nat>
    requires covering.Some? ==> covering.value in WithRun(runs, w, file)
  {
    var rest := From(WithRun(runs, w, file), w.logStart + 1);
    if covering.Some? && w.op >= w.logStart + 1 && w.logStart + 1 !in rest
    then rest[w.logStart + 1 := WithRun(runs, w, file)[covering.value]] else rest
  }

  function WithRun(runs: map<nat, nat>, w: LogWrite, file: nat): map<nat, nat> {
    if w.entries == [] then Below(runs, w.entriesFrom) else Below(runs, w.entriesFrom)[w.entriesFrom := file]
  }

  ghost predicate IsCovering(runs: map<nat, nat>, op: nat, covering: Option<nat>) {
    match covering
    case Some(k) => Covers(runs, k, op)
    case None => forall k {:trigger k in runs} :: k in runs ==> k > op
  }

  /** An entry that was there keeps its file in the index. */
  lemma KeptIndexed(runs: map<nat, nat>, w: LogWrite, file: nat, covering: Option<nat>, op: nat, f: nat)
    requires w.logStart < op < w.entriesFrom && op <= w.op && Indexed(runs, op, f)
    requires IsCovering(WithRun(runs, w, file), w.logStart + 1, covering)
    ensures Indexed(Reindexed(runs, w, file, covering), op, f)
  {
    var with := WithRun(runs, w, file);
    var k: nat :| Covers(runs, k, op) && runs[k] == f;
    assert Covers(with, k, op) && with[k] == f;
    var runs' := Reindexed(runs, w, file, covering);
    if k >= w.logStart + 1 {
      assert Covers(runs', k, op);
    } else {
      assert covering == Some(k) by {
        assert covering.Some? ==> Covers(with, covering.value, w.logStart + 1);
      }
      assert Covers(runs', w.logStart + 1, op);
    }
  }

  lemma CarriedIndexed(runs: map<nat, nat>, w: LogWrite, file: nat, covering: Option<nat>, op: nat)
    requires Carries(w, op) && w.logStart < w.entriesFrom && IsCovering(WithRun(runs, w, file), w.logStart + 1, covering)
    ensures Indexed(Reindexed(runs, w, file, covering), op, file)
  {
    assert Covers(Reindexed(runs, w, file, covering), w.entriesFrom, op);
  }

  /** What a replayed entry is: one that was there, or one the write carries. */
  lemma ReplayedEntry(entries: Entries, w: LogWrite, file: nat, op: nat)
    requires op in Replayed(entries, Record(file, w))
    ensures Carries(w, op) ==> Replayed(entries, Record(file, w))[op].file == file
    ensures !Carries(w, op) ==> w.logStart < op < w.entriesFrom && op in entries && Replayed(entries, Record(file, w))[op] == entries[op]
  {
  }

  lemma RunIsEntry(runs: map<nat, nat>, entries: Entries, w: LogWrite, file: nat, covering: Option<nat>, k: nat)
    requires (forall k {:trigger k in runs} :: k in runs ==> k in entries) && IsCovering(WithRun(runs, w, file), w.logStart + 1, covering)
    requires k in Reindexed(runs, w, file, covering)
    requires w.logStart < w.entriesFrom && (w.op >= w.logStart + 1 ==> w.logStart + 1 in Replayed(entries, Record(file, w)))
    ensures k in Replayed(entries, Record(file, w))
  {
    if k in runs && w.logStart < k < w.entriesFrom {
      assert k in entries;
    } else if k == w.entriesFrom && w.entries != [] {
      assert Carries(w, k);
    }
  }

  lemma HoldingPart(entries: Entries, s: Image, op: nat)
    requires Holding(entries, s)
    ensures op in entries <==> s.logStart < op <= s.End()
  {
  }

  lemma OpPart(s: Image, w: LogWrite)
    requires WriteFor(s, w)
    ensures Applies(s, w) && w.op == Applied(s, w).End()
  {
  }

  lemma EntryIndexed(runs: map<nat, nat>, entries: Entries, s: Image, w: LogWrite, file: nat, covering: Option<nat>, op: nat)
    requires RunsOk(runs, entries) && Holding(entries, s) && WriteFor(s, w) && op in Replayed(entries, Record(file, w))
    requires IsCovering(WithRun(runs, w, file), w.logStart + 1, covering)
    ensures Indexed(Reindexed(runs, w, file, covering), op, Replayed(entries, Record(file, w))[op].file)
  {
    AppliedShape(s, w);
    OpPart(s, w);
    ReplayedHolds(entries, s, Record(file, w));
    HoldingPart(Replayed(entries, Record(file, w)), Applied(s, w), op);
    ReplayedEntry(entries, w, file, op);
    hide Applied, WriteFor, Replayed, Reindexed, IsCovering, Indexed, Carries, Holding, WithRun;
    if Carries(w, op) {
      CarriedIndexed(runs, w, file, covering, op);
    } else {
      assert Indexed(runs, op, entries[op].file);
      KeptIndexed(runs, w, file, covering, op, entries[op].file);
    }
  }

  lemma ReindexedOk(runs: map<nat, nat>, entries: Entries, s: Image, w: LogWrite, file: nat, covering: Option<nat>)
    requires RunsOk(runs, entries) && Holding(entries, s) && WriteFor(s, w)
    requires IsCovering(WithRun(runs, w, file), w.logStart + 1, covering)
    requires covering.Some? ==> covering.value in WithRun(runs, w, file)
    ensures RunsOk(Reindexed(runs, w, file, covering), Replayed(entries, Record(file, w)))
  {
    hide RunsOk, Applied, WriteFor, Replayed, Reindexed, IsCovering, Indexed, Carries, Holding, WithRun;
    var runs', entries' := Reindexed(runs, w, file, covering), Replayed(entries, Record(file, w));
    FirstStays(entries, s, w, file);
    forall op | op in entries'
      ensures Indexed(runs', op, entries'[op].file)
    {
      EntryIndexed(runs, entries, s, w, file, covering, op);
    }
    RunsPart(runs, entries);
    forall k | k in runs'
      ensures k in entries'
    {
      RunIsEntry(runs, entries, w, file, covering, k);
    }
    AllIndexed(runs', entries');
  }

  lemma FirstStays(entries: Entries, s: Image, w: LogWrite, file: nat)
    requires Holding(entries, s) && WriteFor(s, w)
    ensures w.logStart < w.entriesFrom && (w.op >= w.logStart + 1 ==> w.logStart + 1 in Replayed(entries, Record(file, w)))
  {
    hide Applied, Replayed, Holding;
    AppliedShape(s, w);
    ReplayedHolds(entries, s, Record(file, w));
    HoldingPart(Replayed(entries, Record(file, w)), Applied(s, w), w.logStart + 1);
  }

  lemma RunsPart(runs: map<nat, nat>, entries: Entries)
    requires RunsOk(runs, entries)
    ensures forall k {:trigger k in runs} :: k in runs ==> k in entries
  {
  }

  lemma AllIndexed(runs: map<nat, nat>, entries: Entries)
    requires forall op {:trigger entries[op]} :: op in entries ==> Indexed(runs, op, entries[op].file)
    requires forall k {:trigger k in runs} :: k in runs ==> k in entries
    ensures RunsOk(runs, entries)
  {
  }

  lemma ReplayedFiles(entries: Entries, r: Record)
    requires FilesOrdered(entries) && FilesUpTo(entries, r.file)
    ensures FilesOrdered(Replayed(entries, r)) && FilesUpTo(Replayed(entries, r), r.file)
  {
    var entries' := Replayed(entries, r);
    forall a, b | a in entries' && b in entries' && a <= b
      ensures entries'[a].file <= entries'[b].file
    {
      assert !Carries(r.write, a) ==> a in entries && entries'[a] == entries[a];
      assert !Carries(r.write, b) ==> b in entries && entries'[b] == entries[b];
    }
  }

  /** No entry is in a file before that of the first run. */
  lemma FirstIsOldest(runs: map<nat, nat>, entries: Entries, first: nat)
    requires RunsOk(runs, entries) && FilesOrdered(entries) && first in runs
    requires forall k {:trigger k in runs} :: k in runs ==> first <= k
    ensures FilesFrom(entries, runs[first])
  {
    assert first in entries;
    var j: nat :| Covers(runs, j, first) && runs[j] == entries[first].file;
    assert first in runs ==> first <= j;
    forall op | op in entries
      ensures entries[op].file >= runs[first]
    {
      var k: nat :| Covers(runs, k, op) && runs[k] == entries[op].file;
      assert k in runs;
    }
  }

  /** The file of the oldest retained entry, or if there is none the one with the latest record. */
  function NeededFile(entries: Entries, s: Image, file: nat): nat {
    if s.logStart + 1 in entries then entries[s.logStart + 1].file else file
  }

  /** Every retained entry is in file `needed` or a later one, and some entry in it, or if none is retained
      it is the file with the latest record. */
  ghost predicate OldestNeeded(entries: Entries, file: nat, needed: nat) {
    FilesFrom(entries, needed) && if entries == map[] then needed == file else exists op :: op in entries && entries[op].file == needed
  }

  lemma NeededIsOldest(entries: Entries, s: Image, file: nat)
    requires Holding(entries, s) && FilesOrdered(entries)
    ensures OldestNeeded(entries, file, NeededFile(entries, s, file))
  {
    var first := s.logStart + 1;
    if first in entries {
      forall op | op in entries
        ensures entries[op].file >= entries[first].file
      {
        assert s.logStart < op;
      }
    } else {
      assert |s.log| == 0;
      assert entries.Keys == {};
    }
  }

  /** The first run is that of the oldest retained entry. */
  lemma FirstIsNeeded(runs: map<nat, nat>, entries: Entries, s: Image, first: nat, file: nat)
    requires RunsOk(runs, entries) && Holding(entries, s) && FilesUpTo(entries, file) && first in runs
    requires forall k {:trigger k in runs} :: k in runs ==> first <= k
    ensures runs[first] == NeededFile(entries, s, file) <= file
  {
    hide Holding, RunsOk, Indexed, Covers;
    var start := s.logStart + 1;
    RunsPart(runs, entries);
    HoldingPart(entries, s, first);
    HoldingPart(entries, s, start);
    var k := RunOf(runs, entries, start);
    HoldingPart(entries, s, k);
  }

  lemma RunOf(runs: map<nat, nat>, entries: Entries, op: nat) returns (k: nat)
    requires RunsOk(runs, entries) && op in entries
    ensures k in runs && k in entries && k <= op && runs[k] == entries[op].file
  {
    assert Indexed(runs, op, entries[op].file);
    k :| Covers(runs, k, op) && runs[k] == entries[op].file;
  }

  // ---------------------------------------------------------------------------
  // The journal

  ghost predicate FilesInOrder(records: seq<Record>, file: nat) {
    forall i {:trigger records[i]} :: 0 <= i < |records| ==> records[i].file <= file
  }

  lemma WrittenNext(records: seq<Record>, r: Record)
    requires InSequence(records) && FilesInOrder(records, r.file) && Folds(records) && WriteFor(Fold(records), r.write)
    ensures InSequence(records + [r]) && Folds(records + [r]) && Fold(records + [r]) == Applied(Fold(records), r.write)
    ensures Replay(records + [r]) == Replayed(Replay(records), r)
  {
    hide WriteFor, Applied, Replayed;
    assert Applies(Fold(records), r.write) by { OpPart(Fold(records), r.write); }
    var all := records + [r];
    assert all[..|records|] == records;
    forall i | 0 <= i < |all|
      ensures Folds(all[..i]) && WriteFor(Fold(all[..i]), all[i].write)
    {
      if i < |records| {
        assert all[..i] == records[..i] && all[i] == records[i];
      }
    }
  }

  lemma {:induction false} TrimmedNext(records: seq<Record>, t: nat, r: Record)
    requires t <= r.file
    ensures Trimmed(records + [r], t) == Trimmed(records, t) + [r]
  {
    if records != [] && records[0].file < t {
      assert (records + [r])[1..] == records[1..] + [r];
      TrimmedNext(records[1..], t, r);
    } else if records == [] {
      assert records + [r] == [r];
    }
  }

  /** The replayed entries are no older than `t`, nor is what the next record leaves. */
  lemma FilesFromNext(entries: Entries, t: nat, r: Record)
    requires FilesFrom(entries, t) && t <= r.file
    ensures FilesFrom(Replayed(entries, r), t)
  {
  }

  class Journal {
    var runs: map<nat, nat>
    var lastFile: nat
    var trimmedBefore: nat
    // The deletion of the files before one, while it is out.
    var trimming: Option<nat>
    // What the files hold, every record written, and the oldest file left.
    var records: seq<Record>
    ghost var history: seq<Record>
    ghost var oldest: nat

    ghost predicate HistoryOk()
      reads this
    {
      InSequence(history) && Folds(history) && Holding(Replay(history), Fold(history)) && FilesInOrder(history, lastFile)
      && (history != [] ==> lastFile == history[|history| - 1].file)
    }

    ghost predicate IndexOk()
      reads this
    {
      RunsOk(runs, Replay(history)) && FilesOrdered(Replay(history)) && FilesUpTo(Replay(history), lastFile)
    }

    /** What is deleted, or about to be, is not needed. */
    ghost predicate TrimOk()
      reads this
    {
      && records == Trimmed(history, oldest) && FilesFrom(Replay(history), oldest) && oldest <= lastFile
      && (trimming.Some? ==> oldest <= trimming.value <= lastFile && FilesFrom(Replay(history), trimming.value))
    }

    ghost predicate Valid()
      reads this
    {
      HistoryOk() && IndexOk() && TrimOk()
    }

    constructor ()
      ensures Valid() && history == [] && records == []
    {
      runs, lastFile, trimmedBefore, trimming, records := map[], 0, 0, None, [];
      history, oldest := [], 0;
    }

    /** Appends a write as one record, which lands in the last file or a later one. */
    method Append(w: LogWrite, file: nat, answered: bool)
      requires Valid() && WriteFor(Fold(history), w) && file >= lastFile
      modifies this
      ensures Valid() && history == old(history) + [Record(file, w)]
      ensures Fold(history) == Applied(old(Fold(history)), w)
    {
      hide Holding, InSequence, FilesOrdered, FilesUpTo, FilesFrom, RunsOk, WriteFor, Fold, Folds, Replay, Applied, Trimmed, Replayed;
      ghost var was := history;
      Submit(w, file);
      assert history[..|history| - 1] == was;
      Reindex(w, file);
      StartTrim(answered);
    }

    method Submit(w: LogWrite, file: nat)
      requires Valid() && WriteFor(Fold(history), w) && file >= lastFile
      modifies this`records, this`history, this`lastFile
      ensures HistoryOk() && TrimOk() && history == old(history) + [Record(file, w)] && lastFile == file
      ensures Replay(history) == Replayed(old(Replay(history)), Record(file, w)) && Fold(history) == Applied(old(Fold(history)), w)
      ensures FilesOrdered(Replay(history)) && FilesUpTo(Replay(history), lastFile)
    {
      hide Holding, InSequence, FilesOrdered, FilesUpTo, FilesFrom, RunsOk, WriteFor, Fold, Folds, Replay, Applied, Trimmed, Replayed;
      var r := Record(file, w);
      ghost var entries := Replay(history);
      LaterFiles(history, entries, lastFile, file);
      WrittenNext(history, r);
      ReplayedHolds(entries, Fold(history), r);
      ReplayedFiles(entries, r);
      TrimmedNext(history, oldest, r);
      FilesFromNext(entries, oldest, r);
      if trimming.Some? {
        FilesFromNext(entries, trimming.value, r);
      }
      records := records + [r];
      history := history + [r];
      lastFile := file;
    }

    method Reindex(w: LogWrite, file: nat)
      requires history != [] && history[|history| - 1] == Record(file, w) && Folds(history[..|history| - 1])
      requires Replay(history) == Replayed(Replay(history[..|history| - 1]), Record(file, w))
      requires RunsOk(runs, Replay(history[..|history| - 1])) && Holding(Replay(history[..|history| - 1]), Fold(history[..|history| - 1]))
      requires WriteFor(Fold(history[..|history| - 1]), w)
      modifies this`runs
      ensures RunsOk(runs, Replay(history))
    {
      hide Holding, RunsOk, WriteFor, Fold, Folds, Replay, Replayed;
      var with := WithRun(runs, w, file);
      var covering := Covering(with, w.logStart + 1);
      ReindexedOk(runs, Replay(history[..|history| - 1]), Fold(history[..|history| - 1]), w, file, covering);
      runs := Reindexed(runs, w, file, covering);
    }

    /** Has the files before the oldest needed deleted, unless such a deletion is out. */
    method StartTrim(answered: bool)
      requires Valid() && history != []
      modifies this`trimming, this`trimmedBefore, this`records, this`oldest
      ensures Valid()
      ensures oldest == if answered && old(trimming).Some? then old(trimming).value else old(oldest)
      ensures var needed := NeededFile(Replay(history), Fold(history), lastFile);
              OldestNeeded(Replay(history), lastFile, needed) &&
              if needed > old(trimmedBefore) && (answered || old(trimming).None?) then
                trimming == Some(needed) && trimmedBefore == needed
              else
                trimming == (if answered then None else old(trimming)) && trimmedBefore == old(trimmedBefore)
    {
      hide Holding, InSequence, FilesOrdered, FilesUpTo, RunsOk, Replay, Trimmed;
      NeededIsOldest(Replay(history), Fold(history), lastFile);
      hide OldestNeeded;
      var needed := lastFile;
      if runs != map[] {
        var first := FirstRun(runs);
        FirstIsOldest(runs, Replay(history), first);
        FirstIsFile(runs, Replay(history), first);
        FirstIsNeeded(runs, Replay(history), Fold(history), first, lastFile);
        needed := Min(runs[first], lastFile);
      } else {
        NothingIndexed(runs, Replay(history));
      }
      if answered && trimming.Some? {
        TrimLands();
      }
      if needed > trimmedBefore && trimming.None? {
        trimming := Some(needed);
        trimmedBefore := needed;
      }
    }

    /** Opens the journal again: replays what is left, rebuilds the index, and returns the state every
        write came to, if there was one.  A deletion that was out and had not happened is forgotten. */
    method Open() returns (state: Option<Image>)
      requires Valid()
      modifies this`runs, this`lastFile, this`trimmedBefore, this`trimming
      ensures Valid() && trimming.None?
      ensures state == if history == [] then None else Some(Fold(history))
    {
      hide Holding, InSequence, FilesOrdered, FilesUpTo, FilesFrom, RunsOk, Replay, Fold, Trimmed;
      var entries := ReadAll(records);
      TrimmedReplays(history, oldest) by { FilesPart(Replay(history), oldest); }
      trimmedBefore, trimming := 0, None;
      LastIsLeft(history, oldest, lastFile);
      if records == [] {
        NoEntries();
        runs := map[];
        return None;
      }
      var header := records[|records| - 1];
      HeaderOf(history);
      var log, index := Rebuild(entries, header.write.logStart, header.write.op, Fold(history));
      runs, lastFile := index, header.file;
      state := Some(Image(header.write.view, header.write.lastNormal, header.write.commit, header.write.logStart, log, header.write.recovering));
    }

    /** The files are deleted. */
    method TrimLands()
      requires Valid() && trimming.Some?
      modifies this`records, this`oldest, this`trimming
      ensures Valid() && trimming.None? && oldest == old(trimming).value
    {
      hide Holding, InSequence, FilesOrdered, FilesUpTo, RunsOk, Replay;
      TrimmedTwice(history, oldest, trimming.value);
      records := Trimmed(records, trimming.value);
      oldest := trimming.value;
      trimming := None;
    }
  }

  // ---------------------------------------------------------------------------
  // The journal as a replica's disk

  /** The records come to what the replica's disk holds. */
  ghost predicate Backs(j: Journal, n: Node)
    reads j, n, n.disk
  {
    n.Valid() && j.Valid() && Fold(j.history) == n.disk.Value()
  }

  /** The owner takes the replica's write, has it appended, unless it needs no sync and is skipped, and
      hands it back. */
  method Persist(n: Node, j: Journal, skip: bool, file: nat, answered: bool)
    requires Backs(j, n) && n.outstanding.None? && (n.recovering ==> n.log == []) && file >= j.lastFile
    modifies n, n.disk, j
    ensures Backs(j, n) && n.out.None? && n.Committed() == old(n.Committed())
    ensures Fold(j.history) == n.Memory().(commit := Fold(j.history).commit)
  {
    hide Ok, WriteFor, Applied, Applies, CommittedOps, MemoryOk;
    hide Folds, Fold, Replay, InSequence, Holding, RunsOk, FilesOrdered, FilesUpTo, FilesFrom, FilesInOrder, Trimmed;
    var w := n.TakeWrite();
    var skips := skip && !w.sync;
    if !skips {
      j.Append(w, file, answered);
    }
    n.Land(skips);
  }

  /** Power is lost, the record under way lands whole or not at all, and the replica restarts from what
      the journal replays. */
  method CrashAndOpen(n: Node, j: Journal, landed: bool, file: nat) returns (state: Option<Image>)
    requires Backs(j, n) && file >= j.lastFile
    modifies n, n.disk, j
    ensures Backs(j, n) && n.Committed() <= old(n.Committed())
    ensures state == if j.history == [] then None else Some(n.disk.Value())
    ensures n.Memory() == Rebuilt(if state.Some? then state.value else Empty, n.flushed)
    ensures RebuiltFrom(n.Memory(), if state.Some? then state.value else Empty, n.flushed)
    ensures old(n.landedViews) <= n.landedViews && forall v :: v in n.landedViews ==> v <= n.view
  {
    if landed && n.out.Some? {
      j.Append(n.out.value, file, false);
    }
    n.CrashAndRestart(landed);
    state := j.Open();
  }

  lemma NoEntries()
    ensures RunsOk(map[], Replay([]))
  {
  }

  /** The entries after `start`, and of those the ones before `from`. */
  function SplitOff(entries: Entries, start: nat, from: nat): Entries {
    var kept := map op | op in entries && op >= start + 1 :: entries[op];
    map op | op in kept && op < from :: kept[op]
  }

  lemma ReplayNext(records: seq<Record>, i: nat)
    requires i < |records|
    ensures var w := records[i].write;
            Replay(records[..i + 1]) == SplitOff(Replay(records[..i]), w.logStart, w.entriesFrom) + Carried(w, records[i].file)
  {
    assert records[..i + 1][..i] == records[..i];
  }

  method ReadAll(records: seq<Record>) returns (entries: Entries)
    ensures entries == Replay(records)
  {
    hide SplitOff, Carried;
    entries := map[];
    var i := 0;
    while i < |records|
      invariant i <= |records| && entries == Replay(records[..i])
    {
      ReplayNext(records, i);
      var w := records[i].write;
      entries := SplitOff(entries, w.logStart, w.entriesFrom) + Carried(w, records[i].file);
      i := i + 1;
    }
    assert records[..i] == records;
  }

  /** The entries before `op` are indexed, the last of them by the run that starts at `key`. */
  ghost predicate IndexedUpTo(runs: map<nat, nat>, entries: Entries, start: nat, op: nat, key: nat, file: Option<nat>) {
    && (forall x: nat {:trigger x in entries} :: start < x < op ==> x in entries && Indexed(runs, x, entries[x].file))
    && (forall k {:trigger k in runs} :: k in runs ==> start < k < op && k in entries)
    && (file.None? ==> runs == map[] && op == start + 1)
    && (file.Some? ==> key in runs && runs[key] == file.value && forall k {:trigger k in runs} :: k in runs ==> k <= key)
  }

  lemma IndexSame(runs: map<nat, nat>, entries: Entries, start: nat, op: nat, key: nat, file: Option<nat>)
    requires IndexedUpTo(runs, entries, start, op, key, file) && start < op && op in entries && file == Some(entries[op].file)
    ensures IndexedUpTo(runs, entries, start, op + 1, key, file)
  {
    hide Indexed;
    assert Covers(runs, key, op);
    IndexedBy(runs, key, op);
  }

  lemma IndexedBy(runs: map<nat, nat>, k: nat, op: nat)
    requires Covers(runs, k, op)
    ensures Indexed(runs, op, runs[k])
  {
  }

  lemma IndexNew(runs: map<nat, nat>, entries: Entries, start: nat, op: nat, key: nat, file: Option<nat>)
    requires IndexedUpTo(runs, entries, start, op, key, file) && start < op && op in entries
    ensures IndexedUpTo(runs[op := entries[op].file], entries, start, op + 1, op, Some(entries[op].file))
  {
    hide Indexed;
    var runs' := runs[op := entries[op].file];
    assert Covers(runs', op, op);
    IndexedBy(runs', op, op);
    forall x: nat | start < x < op + 1
      ensures x in entries && Indexed(runs', x, entries[x].file)
    {
      if x < op {
        assert x in entries;
        RunAdded(runs, op, entries[op].file, x, entries[x].file);
      }
    }
  }

  lemma RunAdded(runs: map<nat, nat>, op: nat, f: nat, x: nat, file: nat)
    requires Indexed(runs, x, file) && x < op
    ensures Indexed(runs[op := f], x, file)
  {
    var k: nat :| Covers(runs, k, x) && runs[k] == file;
    assert Covers(runs[op := f], k, x);
  }

  lemma IndexedAll(runs: map<nat, nat>, entries: Entries, s: Image, key: nat, file: Option<nat>)
    requires Holding(entries, s) && IndexedUpTo(runs, entries, s.logStart, s.End() + 1, key, file)
    ensures RunsOk(runs, entries)
  {
  }

  lemma EntryOf(entries: Entries, s: Image, op: nat)
    requires Holding(entries, s) && s.logStart < op <= s.End()
    ensures op in entries && s.log[..op - s.logStart] == s.log[..op - s.logStart - 1] + [entries[op].entry]
  {
  }

  /** The log the entries make up, and the index of their files: a run starts where the file changes. */
  method Rebuild(entries: Entries, start: nat, end: nat, ghost s: Image) returns (log: Log, runs: map<nat, nat>)
    requires Holding(entries, s) && s.logStart == start && s.End() == end
    ensures log == s.log && RunsOk(runs, entries)
  {
    hide Holding, IndexedUpTo, RunsOk;
    log, runs := [], map[];
    var file: Option<nat> := None;
    ghost var key: nat := 0;
    var op := start + 1;
    assert IndexedUpTo(runs, entries, start, op, key, file) by { IndexedNone(entries, start, key); }
    while op <= end
      invariant start + 1 <= op <= end + 1 && log == s.log[..op - start - 1]
      invariant IndexedUpTo(runs, entries, start, op, key, file)
    {
      EntryOf(entries, s, op);
      var e := entries[op];
      log := log + [e.entry];
      if file == Some(e.file) {
        IndexSame(runs, entries, start, op, key, file);
      } else {
        IndexNew(runs, entries, start, op, key, file);
        runs := runs[op := e.file];
        file := Some(e.file);
        key := op;
      }
      op := op + 1;
    }
    IndexedAll(runs, entries, s, key, file);
    assert s.log[..end - start] == s.log;
  }

  lemma IndexedNone(entries: Entries, start: nat, key: nat)
    ensures IndexedUpTo(map[], entries, start, start + 1, key, None)
  {
  }

  lemma FilesPart(entries: Entries, t: nat)
    requires FilesFrom(entries, t)
    ensures forall op {:trigger entries[op]} :: op in entries ==> entries[op].file >= t
  {
  }

  /** The last record is never deleted. */
  lemma LastIsLeft(records: seq<Record>, t: nat, file: nat)
    requires records != [] ==> records[|records| - 1].file == file && t <= file
    ensures records == [] <==> Trimmed(records, t) == []
    ensures records != [] ==> Trimmed(records, t)[|Trimmed(records, t)| - 1] == records[|records| - 1]
  {
    var k := TrimmedIsSuffix(records, t);
  }

  lemma HeaderOf(records: seq<Record>)
    requires records != [] && InSequence(records) && Folds(records)
    ensures var w, s := records[|records| - 1].write, Fold(records);
            && s.view == w.view && s.lastNormal == w.lastNormal && s.commit == w.commit && s.logStart == w.logStart
            && s.recovering == w.recovering && s.End() == w.op
  {
    var r := records[|records| - 1];
    AppliedShape(Fold(records[..|records| - 1]), r.write);
  }

  lemma FirstIsFile(runs: map<nat, nat>, entries: Entries, first: nat)
    requires RunsOk(runs, entries) && first in runs
    ensures first in entries && entries[first].file == runs[first]
  {
    assert first in entries;
    var k: nat :| Covers(runs, k, first) && runs[k] == entries[first].file;
    assert first in runs ==> first <= k;
  }

  lemma LaterFiles(records: seq<Record>, entries: Entries, file: nat, later: nat)
    requires FilesInOrder(records, file) && FilesUpTo(entries, file) && file <= later
    ensures FilesInOrder(records, later) && FilesUpTo(entries, later)
  {
  }

  lemma NothingIndexed(runs: map<nat, nat>, entries: Entries)
    requires RunsOk(runs, entries) && runs == map[]
    ensures entries == map[]
  {
  }
}
