/** Checkpoints: a state machine that records its history, hands out a checkpoint of it in chunks and
    restores another's, and the fetch of one, chunk by chunk, from a replica that may fall silent. */
module Checkpoints {
  import opened Types

  /** What the client table keeps of a client. */
  type ClientRecord(==, !new)

  datatype OpKind = Add(amount: int) | Sub(amount: int)

  /** An op applied, with its op number. */
  datatype Applied = Applied(op: nat, kind: OpKind)

  /** A client record handed over, with its op number; none for an eviction. */
  datatype Recorded = Recorded(op: nat, client: nat, record: Option<ClientRecord>)

  // ---------------------------------------------------------------------------
  // What a history comes to

  /** A signed 64-bit integer, which wraps around. */
  function Wrap(x: int): int { (x + 0x8000_0000_0000_0000) % 0x1_0000_0000_0000_0000 - 0x8000_0000_0000_0000 }

  function Apply(value: int, kind: OpKind): int {
    match kind case Add(v) => Wrap(value + v) case Sub(v) => Wrap(value - v)
  }

  function Value(applied: seq<Applied>): int {
    if applied == [] then 0 else Apply(Value(applied[..|applied| - 1]), applied[|applied| - 1].kind)
  }

  function Table(recorded: seq<Recorded>): map<nat, ClientRecord> {
    if recorded == [] then map[]
    else
      var table, last := Table(recorded[..|recorded| - 1]), recorded[|recorded| - 1];
      match last.record case Some(r) => table[last.client := r] case None => table - {last.client}
  }

  ghost predicate InOrder(applied: seq<Applied>, recorded: seq<Recorded>, op: nat) {
    && (forall i, j :: 0 <= i < j < |applied| ==> applied[i].op < applied[j].op)
    && (forall i, j :: 0 <= i < j < |recorded| ==> recorded[i].op <= recorded[j].op)
    && (forall i {:trigger applied[i]} :: 0 <= i < |applied| ==> applied[i].op <= op)
    && (forall i {:trigger recorded[i]} :: 0 <= i < |recorded| ==> recorded[i].op <= op)
  }

  // ---------------------------------------------------------------------------
  // Checkpoints and chunks

  /** A state as of op `op`: its history, which says what it came to. */
  datatype Snapshot = Snapshot(op: nat, applied: seq<Applied>, recorded: seq<Recorded>) {
    ghost predicate Valid() { InOrder(applied, recorded, op) }
  }

  /** A part of a checkpoint's history, and in the last part what the history came to. */
  datatype Chunk = Chunk(applied: seq<Applied>, recorded: seq<Recorded>, last: Option<(int, map<nat, ClientRecord>)>)

  /** A checkpoint comes in one to four chunks, as its op number says. */
  function Count(op: nat): nat { 1 + op % 4 }

  function PartSize(len: nat, count: nat): nat
    requires count > 0
  {
    (len + count - 1) / count
  }

  /** The part of `index` out of `count` of a sequence. */
  function Part<T>(s: seq<T>, index: nat, count: nat): seq<T>
    requires count > 0
  {
    var size := PartSize(|s|, count);
    Between(s, index * size, (index + 1) * size)
  }

  function Between<T>(s: seq<T>, from: nat, to: nat): seq<T> {
    if from >= |s| then [] else if to >= |s| then s[from..] else if from <= to then s[from..to] else []
  }

  function ChunkOf(s: Snapshot, index: nat): Chunk {
    Chunk(Part(s.applied, index, Count(s.op)), Part(s.recorded, index, Count(s.op)),
          if index + 1 == Count(s.op) then Some((Value(s.applied), Table(s.recorded))) else None)
  }

  /** The first `k` parts, one after the other. */
  function Parts<T>(s: seq<T>, k: nat, count: nat): seq<T>
    requires count > 0
  {
    if k == 0 then [] else Parts(s, k - 1, count) + Part(s, k - 1, count)
  }

  lemma {:induction false} PartsArePrefix<T>(s: seq<T>, k: nat, count: nat)
    requires count > 0
    ensures Parts(s, k, count) == s[..Min(k * PartSize(|s|, count), |s|)]
  {
    var size := PartSize(|s|, count);
    if k == 0 {
      assert s[..0] == [];
    } else {
      PartsArePrefix(s, k - 1, count);
      var from, to := (k - 1) * size, k * size;
      assert from <= to by { assert to == from + size; }
      if from < |s| {
        assert Part(s, k - 1, count) == s[from..Min(to, |s|)];
        assert s[..from] + s[from..Min(to, |s|)] == s[..Min(to, |s|)];
      } else {
        assert Part(s, k - 1, count) == [];
      }
    }
  }

  lemma SizeCovers(len: nat, count: nat)
    requires count > 0
    ensures count * PartSize(len, count) >= len
  {
    var q, r := (len + count - 1) / count, (len + count - 1) % count;
    assert len + count - 1 == q * count + r;
    assert q * count == count * q;
  }

  /** The parts make up the whole. */
  lemma PartsAreAll<T>(s: seq<T>, count: nat)
    requires count > 0
    ensures Parts(s, count, count) == s
  {
    PartsArePrefix(s, count, count);
    SizeCovers(|s|, count);
    assert s[..|s|] == s;
  }

  lemma NoParts(s: Snapshot)
    ensures Parts(s.applied, 0, Count(s.op)) == [] && Parts(s.recorded, 0, Count(s.op)) == []
  {
  }

  lemma NextParts(s: Snapshot, i: nat)
    ensures Parts(s.applied, i + 1, Count(s.op)) == Parts(s.applied, i, Count(s.op)) + ChunkOf(s, i).applied
    ensures Parts(s.recorded, i + 1, Count(s.op)) == Parts(s.recorded, i, Count(s.op)) + ChunkOf(s, i).recorded
  {
  }

  lemma SamePrefix<T>(s: seq<T>, x: T, k: nat)
    requires k <= |s|
    ensures (s + [x])[..k] == s[..k]
  {
  }

  lemma ValueNext(applied: seq<Applied>, x: Applied)
    ensures Value(applied + [x]) == Apply(Value(applied), x.kind)
  {
    hide Apply;
    assert (applied + [x])[..|applied|] == applied;
  }

  lemma AppliedNext(applied: seq<Applied>, recorded: seq<Recorded>, op: nat, op': nat, kind: OpKind)
    requires InOrder(applied, recorded, op) && op' >= op && (applied != [] ==> applied[|applied| - 1].op < op')
    ensures InOrder(applied + [Applied(op', kind)], recorded, op')
    ensures Value(applied + [Applied(op', kind)]) == Apply(Value(applied), kind)
  {
    hide Value, Apply;
    ValueNext(applied, Applied(op', kind));
    var all := applied + [Applied(op', kind)];
    forall i, j | 0 <= i < j < |all|
      ensures all[i].op < all[j].op
    {
      if j == |applied| {
        assert i < |applied| - 1 ==> applied[i].op < applied[|applied| - 1].op;
      }
    }
  }

  lemma RecordedNext(applied: seq<Applied>, recorded: seq<Recorded>, op: nat, op': nat, client: nat, record: Option<ClientRecord>)
    requires InOrder(applied, recorded, op) && op' >= op
    ensures InOrder(applied, recorded + [Recorded(op', client, record)], op')
    ensures Table(recorded + [Recorded(op', client, record)]) ==
            match record case Some(r) => Table(recorded)[client := r] case None => Table(recorded) - {client}
  {
    assert (recorded + [Recorded(op', client, record)])[..|recorded|] == recorded;
  }

  /** A chunk staged, with the op number of its checkpoint. */
  datatype Staged = Staged(op: nat, chunk: Chunk)

  /** The first `k` chunks of a checkpoint, staged. */
  function Chunks(s: Snapshot, k: nat): (staged: seq<Staged>)
    ensures |staged| == k
  {
    if k == 0 then [] else Chunks(s, k - 1) + [Staged(s.op, ChunkOf(s, k - 1))]
  }

  lemma {:induction false} ChunkAt(s: Snapshot, k: nat, i: nat)
    requires i < k
    ensures Chunks(s, k)[i] == Staged(s.op, ChunkOf(s, i))
  {
    if i < k - 1 {
      ChunkAt(s, k - 1, i);
    }
  }

  datatype Kept = Kept(op: nat, applied: nat, recorded: nat, value: int, clients: map<nat, ClientRecord>)

  /** The state machine. */
  class Accumulator {
    var value: int
    var applied: seq<Applied>
    var clients: map<nat, ClientRecord>
    var recorded: seq<Recorded>
    // The last op applied, recorded or restored.
    var op: nat
    var kept: Option<Kept>
    var staged: seq<Staged>

    function State(): Snapshot
      reads this
    {
      Snapshot(op, applied, recorded)
    }

    /** The checkpoint kept: the history up to it, which only grows. */
    function KeptState(): Snapshot
      requires kept.Some? && kept.value.applied <= |applied| && kept.value.recorded <= |recorded|
      reads this
    {
      Snapshot(kept.value.op, applied[..kept.value.applied], recorded[..kept.value.recorded])
    }

    ghost predicate KeptOk()
      reads this
    {
      kept.Some? ==>
        && kept.value.applied <= |applied| && kept.value.recorded <= |recorded| && kept.value.op <= op
        && KeptState().Valid()
        && kept.value.value == Value(KeptState().applied) && kept.value.clients == Table(KeptState().recorded)
    }

    ghost predicate Valid()
      reads this
    {
      State().Valid() && value == Value(applied) && clients == Table(recorded) && KeptOk()
    }

    constructor ()
      ensures Valid() && State() == Snapshot(0, [], []) && kept.None? && staged == []
    {
      value, applied, clients, recorded, op, kept, staged := 0, [], map[], [], 0, None, [];
    }

    /** Executes an op, later than those before, and returns how many have. */
    method ApplyOp(op': nat, kind: OpKind) returns (count: nat)
      requires Valid() && op' >= op && (applied != [] ==> applied[|applied| - 1].op < op')
      modifies this`value, this`applied, this`op
      ensures Valid() && State() == old(State()).(op := op', applied := old(applied) + [Applied(op', kind)])
      ensures count == |applied| && (kept.Some? ==> KeptState() == old(KeptState()))
    {
      hide InOrder, Value, Table, Apply;
      AppliedNext(applied, recorded, op, op', kind);
      if kept.Some? {
        SamePrefix(applied, Applied(op', kind), kept.value.applied);
      }
      value := Apply(value, kind);
      applied := applied + [Applied(op', kind)];
      op := op';
      count := |applied|;
    }

    /** Keeps a client's record, or drops it. */
    method RecordClient(op': nat, client: nat, record: Option<ClientRecord>)
      requires Valid() && op' >= op
      modifies this`clients, this`recorded, this`op
      ensures Valid() && State() == old(State()).(op := op', recorded := old(recorded) + [Recorded(op', client, record)])
      ensures kept.Some? ==> KeptState() == old(KeptState())
    {
      hide InOrder, Value, Table;
      RecordedNext(applied, recorded, op, op', client, record);
      if kept.Some? {
        SamePrefix(recorded, Recorded(op', client, record), kept.value.recorded);
      }
      match record {
        case Some(r) => clients := clients[client := r];
        case None => clients := clients - {client};
      }
      recorded := recorded + [Recorded(op', client, record)];
      op := op';
    }

    /** Keeps a checkpoint of the state as it is. */
    method Checkpoint() returns (at: nat)
      requires Valid()
      modifies this`kept
      ensures Valid() && at == op && kept.Some? && KeptState() == State()
    {
      kept := Some(Kept(op, |applied|, |recorded|, value, clients));
      assert applied[..|applied|] == applied && recorded[..|recorded|] == recorded;
      at := op;
    }

    /** Chunk `index` of the checkpoint kept, whatever was applied since. */
    method CheckpointChunk(index: nat) returns (chunk: Chunk, last: bool)
      requires Valid() && kept.Some?
      ensures chunk == ChunkOf(KeptState(), index) && last == (index + 1 == Count(KeptState().op))
    {
      var k := kept.value;
      var count := Count(k.op);
      last := index + 1 == count;
      chunk := Chunk(Part(applied[..k.applied], index, count), Part(recorded[..k.recorded], index, count),
                     if last then Some((k.value, k.clients)) else None);
    }

    method ReleaseCheckpoint()
      requires Valid() && kept.Some?
      modifies this`kept
      ensures Valid() && kept.None?
    {
      kept := None;
    }

    /** Stages a chunk of another replica's checkpoint: the first drops what was staged before. */
    method StageChunk(at: nat, index: nat, chunk: Chunk)
      requires Valid() && (index == 0 || index == |staged|)
      modifies this`staged
      ensures Valid() && staged == (if index == 0 then [] else old(staged)) + [Staged(at, chunk)]
    {
      if index == 0 {
        staged := [];
      }
      staged := staged + [Staged(at, chunk)];
    }

    /** Replaces the state with the checkpoint staged. */
    method Restore(at: nat, ghost s: Snapshot)
      requires Valid() && kept.None? && s.op == at && s.Valid() && staged == Chunks(s, Count(at))
      modifies this
      ensures Valid() && State() == s && staged == [] && kept.None?
      ensures value == Value(s.applied) && clients == Table(s.recorded)
    {
      hide InOrder, Value, Table, Part, Parts, Chunks;
      var i := 0;
      var chunks := staged;
      staged, applied, recorded := [], [], [];
      NoParts(s);
      while i < |chunks|
        invariant 0 <= i <= |chunks| && staged == [] && kept.None?
        invariant applied == Parts(s.applied, i, Count(at)) && recorded == Parts(s.recorded, i, Count(at))
        invariant i == Count(at) ==> value == Value(s.applied) && clients == Table(s.recorded)
      {
        ChunkAt(s, Count(at), i);
        NextParts(s, i);
        assert chunks[i].op == at;
        var chunk := chunks[i].chunk;
        applied := applied + chunk.applied;
        recorded := recorded + chunk.recorded;
        if chunk.last.Some? {
          value, clients := chunk.last.value.0, chunk.last.value.1;
        }
        i := i + 1;
      }
      PartsAreAll(s.applied, Count(at));
      PartsAreAll(s.recorded, Count(at));
      op := at;
    }
  }

  // ---------------------------------------------------------------------------
  // Fetching

  /** The message that named the checkpoint: the view it was sent in, the op of the checkpoint, the
      entries after it, and what its sender had as committed. */
  datatype NewState = NewState(view: nat, base: nat, entries: Log, commit: nat)

  /** The fetch under way: whom it comes from, the next chunk, how long it has waited and whether it has
      stalled, and the message to go on with. */
  datatype Fetch = Fetch(from: nat, index: nat, idlePeriods: nat, stalled: bool, next: NewState) {
    function Asks(): GetChunk { GetChunk(from, next.base, index) }
  }

  /** A chunk asked for. */
  datatype GetChunk = GetChunk(to: nat, op: nat, index: nat)

  /** What a replica keeps as its checkpoint at an op, by replica and op. */
  type Sources = (nat, nat) -> Snapshot

  ghost predicate SourcesOk(checkpoint: Sources) {
    forall from, op {:trigger checkpoint(from, op)} :: checkpoint(from, op).op == op && checkpoint(from, op).Valid()
  }

  /** The replica `from` had the log `whole` as it sent the message: its checkpoint is what the entries
      up to it come to, and the entries sent are the others. */
  ghost predicate Sent(run: Log -> Snapshot, checkpoint: Sources, whole: Log, from: nat, m: NewState) {
    m.base <= |whole| && m.entries == whole[m.base..] && checkpoint(from, m.base) == run(whole[..m.base])
  }

  /** What is staged are the chunks, before the one awaited, of the one checkpoint that is fetched. */
  ghost predicate FetchOk(checkpoint: Sources, f: Fetch, staged: seq<Staged>) {
    f.index < Count(f.next.base) && (f.index > 0 ==> staged == Chunks(checkpoint(f.from, f.next.base), f.index))
  }

  /** A replica that fetches a checkpoint, and the log that starts after it. */
  class Fetcher {
    const timeout: nat
    // What executing a log comes to.
    ghost const run: Log -> Snapshot
    ghost const checkpoint: Sources
    const sm: Accumulator
    var view: nat
    var commit: nat
    var logStart: nat
    var log: Log
    var fetch: Option<Fetch>
    var outbox: seq<GetChunk>
    // The log that the sender of the message to go on with had.
    ghost var whole: Log

    constructor (timeout: nat, ghost run: Log -> Snapshot, ghost checkpoint: Sources)
      requires SourcesOk(checkpoint)
      ensures Valid() && this.timeout == timeout && this.run == run && this.checkpoint == checkpoint && fresh(sm)
      ensures fetch.None? && view == commit == logStart == 0 && log == [] && outbox == []
    {
      this.timeout, this.run, this.checkpoint := timeout, run, checkpoint;
      sm := new Accumulator();
      view, commit, logStart, log := 0, 0, 0, [];
      fetch, outbox, whole := None, [], [];
    }

    ghost predicate Valid()
      reads this, sm
    {
      && sm.Valid() && SourcesOk(checkpoint)
      && (fetch.Some? ==> FetchOk(checkpoint, fetch.value, sm.staged) && Sent(run, checkpoint, whole, fetch.value.from, fetch.value.next))
    }

    /** What `from` sends as a chunk of its checkpoint at `op`. */
    ghost predicate Genuine(from: nat, op: nat, index: nat, chunk: Chunk, last: bool)
      reads this
    {
      chunk == ChunkOf(checkpoint(from, op), index) && last == (index + 1 == Count(op))
    }

    method SendGetChunk()
      modifies this`outbox
      ensures outbox == old(outbox) + if fetch.Some? then [fetch.value.Asks()] else []
    {
      if fetch.Some? {
        var f := fetch.value;
        outbox := outbox + [GetChunk(f.from, f.next.base, f.index)];
      }
    }

    /** A message names a checkpoint of `from`: the fetch of it starts, or goes on if it is under way, asked
        for again if it had stalled; a fetch of a later one that has not stalled goes on instead. */
    method StartFetch(from: nat, next: NewState, ghost whole': Log)
      requires Valid() && Sent(run, checkpoint, whole', from, next)
      modifies this`fetch, this`outbox, this`whole
      ensures Valid()
      ensures var was := old(fetch);
              if was.Some? && (was.value.from, was.value.next.base) == (from, next.base) then
                && fetch == Some(Fetch(from, was.value.index, if was.value.stalled then 0 else was.value.idlePeriods, false, next))
                && whole == whole' && outbox == old(outbox) + if was.value.stalled then [fetch.value.Asks()] else []
              else if was.Some? && was.value.next.base > next.base && !was.value.stalled then
                fetch == was && whole == old(whole) && outbox == old(outbox)
              else
                && fetch == Some(Fetch(from, 0, 0, false, next))
                && whole == whole' && outbox == old(outbox) + [GetChunk(from, next.base, 0)]
    {
      hide InOrder, Chunks, SourcesOk;
      if fetch.Some? {
        var f := fetch.value;
        if (f.from, f.next.base) == (from, next.base) {
          fetch, whole := Some(f.(next := next)), whole';
          if f.stalled {
            fetch := Some(f.(next := next, stalled := false, idlePeriods := 0));
            SendGetChunk();
          }
          return;
        }
        if f.next.base > next.base && !f.stalled {
          return;
        }
      }
      fetch, whole := Some(Fetch(from, 0, 0, false, next)), whole';
      SendGetChunk();
    }

    /** An idle period of the fetch: it asks again after a whole one without the chunk, and stalls after
        twice the timeout.  Whether one goes on. */
    method OnIdle() returns (goesOn: bool)
      requires Valid()
      modifies this`fetch, this`outbox
      ensures Valid() && (goesOn <==> fetch.Some? && !fetch.value.stalled)
      ensures old(fetch).None? || old(fetch).value.stalled ==> fetch == old(fetch) && outbox == old(outbox)
      ensures old(fetch).Some? && !old(fetch).value.stalled ==>
                var n := old(fetch).value.idlePeriods + 1;
                && fetch == Some(old(fetch).value.(idlePeriods := n, stalled := n >= 2 * timeout))
                && outbox == old(outbox) + if 1 < n < 2 * timeout then [fetch.value.Asks()] else []
    {
      hide InOrder, Chunks, SourcesOk;
      if fetch.None? || fetch.value.stalled {
        return false;
      }
      var f := fetch.value.(idlePeriods := fetch.value.idlePeriods + 1);
      fetch := Some(f);
      if f.idlePeriods >= 2 * timeout {
        fetch := Some(f.(stalled := true));
        return false;
      }
      if f.idlePeriods > 1 {
        SendGetChunk();
      }
      return true;
    }

    /** A chunk arrives, perhaps late, again or from a replica no longer asked.  The one awaited is
        staged, and the next is asked for.  With the last one the state is the checkpoint of the replica
        it was fetched from, whole, if that is beyond what is committed, and in the view of the message
        the log is that replica's log after it. */
    method OnNewChunk(from: nat, op: nat, index: nat, chunk: Chunk, last: bool) returns (restored: bool)
      requires Valid() && Genuine(from, op, index, chunk, last)
      modifies this`fetch, this`outbox, this`commit, this`logStart, this`log, sm
      ensures Valid()
      ensures var was := old(fetch);
              var awaited := was.Some? && was.value.Asks() == GetChunk(from, op, index);
              && (restored <==> awaited && last && op > old(commit))
              && (!awaited ==> fetch == was && outbox == old(outbox))
              && (awaited && last ==> fetch.None? && outbox == old(outbox))
              && (awaited && !last ==>
                    && fetch == Some(was.value.(index := index + 1, idlePeriods := 0, stalled := false))
                    && outbox == old(outbox) + [GetChunk(from, op, index + 1)])
      ensures !restored ==> (sm.State(), commit, logStart, log) == old((sm.State(), commit, logStart, log))
      ensures restored ==> old(fetch).value.Asks() == GetChunk(from, op, index) && RestoredOk(old(fetch).value)
    {
      hide InOrder, Chunks, SourcesOk, Value, Table, ChunkOf, Sent;
      if fetch.None? || (fetch.value.from, fetch.value.next.base, fetch.value.index) != (from, op, index) {
        return false;
      }
      var f := fetch.value.(idlePeriods := 0, stalled := false);
      StageNext(checkpoint, f, sm.staged, chunk);
      sm.StageChunk(op, index, chunk);
      if !last {
        fetch := Some(f.(index := index + 1));
        SendGetChunk();
        return false;
      }
      restored := Finish(f);
    }

    /** All is staged. */
    method Finish(f: Fetch) returns (restored: bool)
      requires sm.Valid() && SourcesOk(checkpoint) && Sent(run, checkpoint, whole, f.from, f.next)
      requires sm.staged == Chunks(checkpoint(f.from, f.next.base), Count(f.next.base))
      modifies this`fetch, this`commit, this`logStart, this`log, sm
      ensures Valid() && fetch.None? && (restored <==> f.next.base > old(commit))
      ensures !restored ==> (sm.State(), commit, logStart, log) == old((sm.State(), commit, logStart, log))
      ensures restored ==> RestoredOk(f)
    {
      hide InOrder, Chunks, Value, Table, SourcesOk;
      fetch := None;
      if f.next.base <= commit {
        return false;
      }
      RestoreCheckpoint(f.from, f.next.base);
      GoOn(f.next);
      return true;
    }

    /** Goes on with the message that named the checkpoint restored. */
    method GoOn(next: NewState)
      requires logStart == commit == next.base && log == [] && next.base <= |whole| && next.entries == whole[next.base..]
      modifies this`log, this`commit
      ensures if next.view == view then whole[..next.base] + log == whole && commit == Max(next.base, next.commit)
              else log == [] && commit == next.base
    {
      Rejoined(log, next.base, next.entries, whole);
      if next.view == view {
        MergeLog(next.base, next.entries);
        commit := Max(commit, next.commit);
      }
    }

    /** The state is the checkpoint that was fetched, which is what its sender's log up to there comes to,
        and in the view of the message the log is its sender's after it. */
    ghost predicate RestoredOk(f: Fetch)
      reads this, sm
    {
      var op := f.next.base;
      && op <= |whole| && sm.State() == checkpoint(f.from, op) == run(whole[..op]) && logStart == op && sm.kept.None?
      && if f.next.view == view then whole[..op] + log == whole && commit == Max(op, f.next.commit) else log == [] && commit == op
    }

    /** Makes the checkpoint staged the state, drops the one kept, and starts the log after it. */
    method RestoreCheckpoint(ghost from: nat, op: nat)
      requires sm.Valid() && SourcesOk(checkpoint) && fetch.None? && sm.staged == Chunks(checkpoint(from, op), Count(op))
      modifies this`commit, this`logStart, this`log, sm
      ensures Valid() && sm.State() == checkpoint(from, op) && sm.kept.None? && commit == logStart == op && log == []
      ensures fetch.None?
    {
      hide InOrder, Chunks, Value, Table;
      if sm.kept.Some? {
        sm.ReleaseCheckpoint();
      }
      commit, logStart, log := op, op, [];
      sm.Restore(op, checkpoint(from, op));
    }

    /** Replaces the log after `start`, but for what is committed. */
    method MergeLog(start: nat, entries: Log)
      requires logStart <= Max(start, commit) <= logStart + |log|
      modifies this`log
      ensures var keep := Max(start, commit); log == old(log)[..keep - logStart] + Drop(entries, keep - start)
    {
      var keep := Max(start, commit);
      log := log[..keep - logStart] + Drop(entries, keep - start);
    }

    /** The replica moves to a later view, or has come by its log without the checkpoint: the fetch is
        over, and what was staged counts for nothing. */
    method DropFetch(view': nat)
      requires Valid() && view' >= view
      modifies this`view, this`fetch
      ensures Valid() && view == view' && fetch.None?
    {
      view, fetch := view', None;
    }
  }

  lemma Rejoined(log: Log, base: nat, entries: Log, whole: Log)
    requires log == [] && base <= |whole| && entries == whole[base..]
    ensures whole[..base] + (log[..0] + Drop(entries, 0)) == whole
  {
    assert log[..0] + Drop(entries, 0) == entries;
  }

  /** The chunk awaited goes on from those staged. */
  lemma StageNext(checkpoint: Sources, f: Fetch, staged: seq<Staged>, chunk: Chunk)
    requires SourcesOk(checkpoint) && FetchOk(checkpoint, f, staged) && chunk == ChunkOf(checkpoint(f.from, f.next.base), f.index)
    ensures f.index == 0 || f.index == |staged|
    ensures (if f.index == 0 then [] else staged) + [Staged(f.next.base, chunk)] == Chunks(checkpoint(f.from, f.next.base), f.index + 1)
  {
    assert Chunks(checkpoint(f.from, f.next.base), 0) == [];
  }
}
