/** A checkpoint fetched from another replica, restored before the write that follows it. */
module Restoring {
  import opened Types
  import opened Quorums
  import opened Protocol
  import opened Cluster
  import opened Invariant
  import opened Growth
  import opened Safety
  import opened Steps
  import opened Entering
  import opened Handlers
  import opened Reads

  lemma AllOthers(a: set<nat>, n: nat, i: nat, j: nat)
    requires (forall x :: x in a ==> x < n) && |a| >= n - 1 && i !in a && i < n && j < n && j != i
    ensures j in a
  {
    RangeCount(a + {i, j}, n);
  }

  /** Where a quorum is all replicas but one, one that did not come to a view that chose something is
      left behind by all the others. */
  lemma AllPast(h: History, i: nat, u: nat, n: nat)
    requires HistoryOk(h) && h.cfg.n <= 4 && Chosen(h, u, n) && i < |h.reached| && h.reached[i] < u
    ensures Past(h, i, u)
  {
    hide ReportsKeep, MsgsOk, CompletedOk, ConfirmsOk, ViewsOk, Chosen;
    ChosenOnRecord(h, u, n);
    OriginParts(h, u);
    var o := h.views[u].origin;
    forall j: nat | j < |h.reached| && j in o.reports
      ensures u <= h.reached[j]
    {
      assert ReportedBy(h, u, Born(h, u), j, o.reports[j], o.reports[o.best]);
    }
    forall j: nat | j < |h.reached| && j != i
      ensures u <= h.reached[j]
    {
      AllOthers(o.reports.Keys, h.cfg.n, i, j);
    }
  }

  /** What is chosen by the view a checkpoint came with is certain in the view a crash goes back to:
      the disk records that view, or the replica falls behind alone. */
  lemma CertainOnDisk(h: History, i: nat, r: Replica, k: nat)
    requires HistoryOk(h) && RepOk(h, i, r) && ChosenBy(h, r.view, k) && h.cfg.crashes
    requires h.cfg.guarded ==> r.disk.view >= r.view
    ensures Certain(h, i, r.disk.view, k)
  {
    assert i < |h.reached| && (h.cfg.gated ==> h.reached[i] == r.disk.view) by { DiskReached(h, i, r); }
    hide RepOk, ViewsOk, ReachedOk, MsgsOk, ReportsKeep, CompletedOk, ConfirmsOk;
    if k > 0 {
      var u: nat :| u <= r.view && Chosen(h, u, k);
      if u > r.disk.view {
        AllPast(h, i, u, k);
      }
      assert ChosenFor(h, i, r.disk.view, u, k);
    }
  }

  lemma DiskReached(h: History, i: nat, r: Replica)
    requires RepOk(h, i, r)
    ensures i < |h.reached| && (h.cfg.gated ==> h.reached[i] == r.disk.view)
  {
  }

  /** What a message that names a checkpoint of op `k` says is so. */
  ghost predicate Sends(h: History, r: Replica, m: Message, k: nat) {
    && Fetches(r, m, k)
    && Stretch(h, m.view, m.start, m.entries)
    && m.commit <= m.start + |m.entries|
    && ChosenBy(h, m.view, m.commit)
  }

  lemma SendsOk(h: History, i: nat, r: Replica, m: Message, k: nat)
    requires HistoryOk(h) && Facts(h, i, r) && m in h.msgs && SentTo(h.cfg, i, m) && Fetches(r, m, k)
    ensures Sends(h, r, m, k) && h.cfg.Primary(m.view) != i && OnRecord(h, m.view)
  {
    assert SentOk(h, m);
    hide HistoryOk;
    AnnouncedChosen(h, i, r, m.view, m.commit);
  }

  /** The ops the checkpoint covers are what completed. */
  lemma CheckpointCompleted(h: History, i: nat, r: Replica, m: Message, k: nat)
    requires HistoryOk(h) && Facts(h, i, r) && Sends(h, r, m, k)
    ensures var ops := CheckpointOps(r, m, k);
            && |ops| == k && Same(ops, h.completed, 0, k) && Same(ops, r.log, 0, r.commit)
            && Decided(h, m.view, k) && Decided(h, m.view, m.commit)
  {
    hide HistoryOk;
    ChosenByLess(h, m.view, m.commit, m.view, k);
    hide ChosenBy, Certain;
    DecidedOk(h, m.view, k);
    DecidedOk(h, m.view, m.commit);
    var ops, view := CheckpointOps(r, m, k), h.views[m.view].log;
    forall x | 0 <= x < k
      ensures ops[x] == h.completed[x]
    {
      if x < m.start {
        assert ops[x] == r.log[x];
      } else {
        assert ops[x] == m.entries[x - m.start] == view[x];
      }
    }
  }

  /** The log once the checkpoint is restored and the entries after it merged. */
  function RestoredLog(r: Replica, m: Message, k: nat): Log
    requires Fetches(r, m, k)
  {
    Taken(CheckpointOps(r, m, k), k, m.start, m.entries)
  }

  lemma RestoredHolds(h: History, i: nat, r: Replica, m: Message, k: nat)
    requires HistoryOk(h) && Facts(h, i, r) && Sends(h, r, m, k)
    ensures var log := RestoredLog(r, m, k);
            && Holds(h, m.view, log, k) && Holds(h, m.view, log, m.commit)
            && Same(log, r.log, 0, r.commit) && |log| == m.start + |m.entries| && CheckpointOps(r, m, k) <= log
  {
    hide HistoryOk;
    CheckpointCompleted(h, i, r, m, k);
    var ops := CheckpointOps(r, m, k);
    hide CheckpointOps, Facts, ChosenBy;
    EmptyStretch(ops, h.views[m.view].log, k);
    TakenHolds(h, m.view, ops, k, k, m.start, m.entries);
    hide Holds, Stretch, Decided;
    HoldsMore(h, m.view, RestoredLog(r, m, k), k, m.commit);
  }

  /** The state machine is the checkpoint, durably. */
  lemma RestoredState(h: History, i: nat, r: Replica, m: Message, k: nat, commit: nat)
    requires HistoryOk(h) && RepOk(h, i, r) && Sends(h, r, m, k) && k <= commit && r.commit < k
    requires h.cfg.guarded ==> r.disk.view >= m.view
    ensures var ops := CheckpointOps(r, m, k); StateHeld(h, i, r, commit, RestoredLog(r, m, k), ops, ops)
  {
    RepFacts(h, i, r);
    StateCompleted(h, i, r);
    hide HistoryOk, RepOk;
    RestoredHolds(h, i, r, m, k);
    if h.cfg.crashes {
      ChosenByLess(h, m.view, m.commit, m.view, k);
      CertainOnDisk(h, i, r, k);
    }
  }

  /** Merging the entries after the checkpoint leaves nothing else to do. */
  lemma RestoredMerge(r: Replica, m: Message, k: nat)
    requires Fetches(r, m, k) && r.commit < k && (r.changed.Some? ==> r.changed.value >= 1)
    ensures var ops := CheckpointOps(r, m, k);
            Merge(Fetched(r, m, k), m.start, m.entries) ==
            r.(log := RestoredLog(r, m, k), changed := MarkChanged(r.changed, r.commit + 1), commit := k, sm := ops, flushed := ops)
  {
  }

  // ---------------------------------------------------------------------------
  // Within the view

  lemma MarkedPart(h: History, i: nat, r: Replica)
    requires RepOk(h, i, r)
    ensures r.changed.Some? ==> r.changed.value >= 1
  {
    MarkedFromOne(|r.flushed|, r.log, r.changed, r.durable, Latest(r.out, r.disk).log, r.disk.log);
  }

  lemma RestoreInViewOk(h: History, i: nat, r: Replica, m: Message, k: nat)
    requires HistoryOk(h) && RepOk(h, i, r) && Sends(h, r, m, k) && r.status == StateTransfer
    requires h.cfg.guarded ==> r.disk.view >= m.view
    ensures Quiet(h, i, r, Restored(h.cfg, i, r, m, k))
  {
    hide RepOk, HistoryOk, Merge, CommitUpTo, RestoredLog, CheckpointOps, Holds, StateHeld;
    RepFacts(h, i, r);
    MarkedPart(h, i, r);
    var log, ops := RestoredLog(r, m, k), CheckpointOps(r, m, k);
    RestoredHolds(h, i, r, m, k);
    RestoredState(h, i, r, m, k, k);
    ChosenByLess(h, m.view, m.commit, m.view, k);
    hide ChosenBy;
    ChangeLogOk(h, i, r, log, r.commit + 1, ops, ops, k);
    RestoredMerge(r, m, k);
    CommitTransferOk(h, i, Merge(Fetched(r, m, k), m.start, m.entries), m.commit);
  }

  // ---------------------------------------------------------------------------
  // Catching up with a view

  /** Committing what the message says executes nothing: the changed entries wait for their write. */
  lemma RestoredEnters(cfg: Config, i: nat, r: Replica, m: Message, k: nat)
    requires Fetches(r, m, k) && r.status == ViewChange && cfg.Primary(r.view) != i && (r.changed.Some? ==> r.changed.value >= 1)
    ensures var ops := CheckpointOps(r, m, k);
            Restored(cfg, i, r, m, k) == SendPrepareOk(i, Enter(r.(sm := ops, flushed := ops), r.view, RestoredLog(r, m, k), m.commit))
  {
    RestoredMerge(r, m, k);
    hide Merge, CheckpointOps, RestoredLog, ExecuteQueries;
    var r1 := Merge(Fetched(r, m, k), m.start, m.entries).(catchingUp := None);
    assert |CheckpointOps(r, m, k)| == k by { CheckpointSize(r, m, k); }
    NotItsQueries(cfg, i, r1.(commit := m.commit));
    assert DurableOp(r1) <= r.commit;
    assert CommitUpTo(cfg, i, r1, m.commit) == r1.(commit := m.commit);
  }

  lemma CheckpointSize(r: Replica, m: Message, k: nat)
    requires Fetches(r, m, k)
    ensures |CheckpointOps(r, m, k)| == k
  {
  }

  lemma NotItsQueries(cfg: Config, i: nat, r: Replica)
    requires cfg.Primary(r.view) != i
    ensures ExecuteQueries(cfg, i, r) == r
  {
  }

  lemma RestoreCatchingUpOk(h: History, i: nat, r: Replica, m: Message, k: nat)
    requires HistoryOk(h) && RepOk(h, i, r) && Sends(h, r, m, k) && r.status == ViewChange && h.cfg.Primary(r.view) != i && OnRecord(h, r.view)
    requires h.cfg.guarded ==> r.disk.view >= m.view
    ensures Quiet(h, i, r, Restored(h.cfg, i, r, m, k))
  {
    RepFacts(h, i, r);
    MarkedFromOne(|r.flushed|, r.log, r.changed, r.durable, Latest(r.out, r.disk).log, r.disk.log);
    hide RepOk, HistoryOk, Restored, Enter, RestoredLog, CheckpointOps, Holds, StateHeld, Certain;
    var log, ops := RestoredLog(r, m, k), CheckpointOps(r, m, k);
    RestoredHolds(h, i, r, m, k);
    RestoredState(h, i, r, m, k, m.commit);
    ChosenByCertain(h, i, m.view, m.commit);
    EnterOk(h, i, r, r.view, log, m.commit, ops, ops);
    RestoredEnters(h.cfg, i, r, m, k);
    EnteredIn(r.(sm := ops, flushed := ops), r.view, log, m.commit);
    SendPrepareOkOk(h, i, Enter(r.(sm := ops, flushed := ops), r.view, log, m.commit));
  }

  lemma EnteredIn(r: Replica, v: nat, log: Log, commit: nat)
    ensures var r' := Enter(r, v, log, commit); r'.view == r'.lastNormal == v && r'.log == log
  {
  }

  /** Restoring a checkpoint and going on with the message that named it keeps the invariant. */
  lemma RestoreKeeps(h: History, i: nat, r: Replica, m: Message, k: nat)
    requires HistoryOk(h) && RepOk(h, i, r) && m in h.msgs && SentTo(h.cfg, i, m) && Fetches(r, m, k)
    requires h.cfg.guarded ==> r.disk.view >= m.view
    ensures Quiet(h, i, r, Restored(h.cfg, i, r, m, k))
  {
    hide RepOk, HistoryOk, Restored, Sends;
    RepFacts(h, i, r);
    SendsOk(h, i, r, m, k);
    if r.status == StateTransfer {
      RestoreInViewOk(h, i, r, m, k);
    } else {
      RestoreCatchingUpOk(h, i, r, m, k);
    }
  }
}
