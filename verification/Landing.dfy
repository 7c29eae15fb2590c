/** A write lands: what waited for it leaves, and what it holds may be acknowledged and executed. */
module Landing {
  import opened Types
  import opened Quorums
  import opened Protocol
  import opened Cluster
  import opened Invariant
  import opened Growth
  import opened Safety
  import opened Steps
  import opened Entering
  import opened Others
  import opened Handlers
  import opened Reads
  import opened Leading

  /** The disk once the write that is out has landed, skipped or not. */
  function LandedDisk(r: Replica, skip: bool): Image
    requires r.out.Some?
  {
    if skip then r.disk else r.out.value
  }

  /** The history once what waited for the write has left, with the primary's own acknowledgement. */
  function LandedHistory(h: History, i: nat, r: Replica, disk: Image): History
    requires r.out.Some? && i < |h.reached|
  {
    h.(views := Establish(h.cfg, i, disk, h.views), msgs := h.msgs + r.waiting + OwnAck(h.cfg, i, r),
       reached := Raise(h.reached, i, disk.view))
  }

  ghost predicate MayLand(r: Replica, disk: Image) {
    r.out.Some? && disk == r.out.value.(commit := disk.commit) && (disk == r.out.value || disk == r.disk)
  }

  lemma EstablishGrows(h: History, i: nat, disk: Image, h': History)
    requires h' == h.(views := Establish(h.cfg, i, disk, h.views), msgs := h'.msgs, reached := Raise(h.reached, i, disk.view))
    requires h.msgs <= h'.msgs
    ensures Grows(h, h') && h'.views.Keys == h.views.Keys
  {
  }

  /** What the own acknowledgement promises: entries that memory and the landed write both hold. */
  lemma OwnAckHeld(h: History, i: nat, r: Replica)
    requires RepOk(h, i, r) && r.out.Some?
    ensures forall m :: m in OwnAck(h.cfg, i, r) ==>
              m.PrepareOk? && m.from == i && m.view == r.view == r.lastNormal == r.out.value.lastNormal
              && h.cfg.Primary(r.view) == i && m.op <= |r.out.value.log| && m.op <= |r.log|
  {
    hide BoxesOk, ReportsOk, RecordedOk, ExecutedOk, ExecutionOk, AckedOk, AnswersOk, LeaderOk, AcksOk, LeadsOk;
  }

  /** What waited for a write leaves once its views are on record. */
  lemma BoxSent(h: History, i: nat, box: set<Message>, lastNormal: nat, log: Log, m: Message)
    requires BoxOk(h, i, box, lastNormal, log) && m in box
    requires forall v {:trigger h.views[v]} :: v in h.views && h.cfg.Primary(v) == i && v <= lastNormal ==> h.views[v].est
    ensures SentOk(h, m)
  {
    hide Certain;
    assert MsgOk(h, i, m);
  }

  lemma LandedSent(h: History, i: nat, r: Replica, disk: Image, m: Message)
    requires RepOk(h, i, r) && MayLand(r, disk) && i < |h.reached|
    requires Grows(h, LandedHistory(h, i, r, disk)) && m in r.waiting + OwnAck(h.cfg, i, r)
    ensures SentOk(LandedHistory(h, i, r, disk), m)
  {
    hide ImageOk, AcksOk, ReportsOk, RecordedOk, WritesOk, ExecutedOk, ExecutionOk, AckedOk, AnswersOk, LeaderOk, LeadsOk,
      EarlyOk, BoxOk, Grows, MsgOk, OwnAck;
    var h' := LandedHistory(h, i, r, disk);
    OwnAckHeld(h, i, r);
    if m in r.waiting {
      BoxGrows(h, h', i, r.waiting, r.out.value.lastNormal, r.out.value.log);
      BoxSent(h', i, r.waiting, r.out.value.lastNormal, r.out.value.log, m);
    } else {
      MemKnown(h, i, r);
      OwnAckSent(h', i, m);
    }
  }

  lemma MemKnown(h: History, i: nat, r: Replica)
    requires RepOk(h, i, r)
    ensures i < h.cfg.n && r.lastNormal in h.views
  {
  }

  lemma OwnAckSent(h: History, i: nat, m: Message)
    requires m.PrepareOk? && m.from == i < h.cfg.n && OnRecord(h, m.view)
    ensures SentOk(h, m)
  {
  }

  lemma LandedReports(h: History, i: nat, r: Replica, disk: Image)
    requires ReportsKeep(h) && RepOk(h, i, r) && MayLand(r, disk) && i < |h.reached|
    requires forall m :: m in r.waiting && (m.PrepareOk? || m.DoViewChange?) ==> m.from == i
    ensures ReportsKeep(LandedHistory(h, i, r, disk))
  {
    var h' := LandedHistory(h, i, r, disk);
    OwnAckHeld(h, i, r);
    var said := Said(h, r);
    assert ReportsKeepAcks(said, i) && ReportsUpTo(said, i, r.view) && OwnReportsKeep(h, said, i) && LeadsOk(h, i, Snapshot(r), r.disk);
    hide RepOk, OwnAck;
    forall w: nat, j: nat, d | DoViewChange(w, j, d) in h'.msgs
      ensures ReportKeeps(h'.msgs, j, w, d)
    {
      if j == i {
        assert ReportKeeps(said, i, w, d);
      } else {
        assert ReportKeeps(h.msgs, j, w, d);
      }
    }
    forall w | w in h'.views && h'.cfg.Primary(w) in h'.views[w].origin.reports
      ensures ReportKeeps(h'.msgs, h'.cfg.Primary(w), w, h'.views[w].origin.reports[h'.cfg.Primary(w)])
    {
      var j := h.cfg.Primary(w);
      if j == i {
        assert ReportKeeps(said, i, w, h.views[w].origin.reports[i]);
      } else {
        assert ReportKeeps(h.msgs, j, w, h.views[w].origin.reports[j]);
      }
    }
  }

  lemma LandParts(h: History, i: nat, r: Replica, disk: Image)
    requires RepOk(h, i, r) && MayLand(r, disk)
    ensures i < |h.reached| && h.reached[i] <= r.view && disk.view <= r.view && (h.cfg.gated ==> h.reached[i] <= disk.view) && disk.lastNormal <= disk.view
    ensures ReportsUpTo(h.msgs + r.waiting, i, disk.view) && LeadsOk(h, i, Snapshot(r), r.disk) && r.disk.lastNormal <= disk.lastNormal
    ensures forall m :: m in r.waiting && (m.PrepareOk? || m.DoViewChange? || m.StartViewChange?) ==> m.from == i
    ensures forall m :: m in r.waiting ==> !m.ConfirmView?
  {
    hide AcksOk, RecordedOk, ExecutedOk, ExecutionOk, AckedOk, AnswersOk, LeaderOk, WritesOk, EarlyOk, LeadsOk;
  }

  lemma RaiseIsLater(reached: seq<nat>, i: nat, view: nat)
    requires i < |reached|
    ensures |Raise(reached, i, view)| == |reached| && Raise(reached, i, view)[i] >= view
    ensures forall j :: 0 <= j < |reached| ==> reached[j] <= Raise(reached, i, view)[j]
  {
  }

  lemma LandedDisks(h: History, i: nat, r: Replica, disk: Image)
    requires RepOk(h, i, r) && MayLand(r, disk) && ReachedOk(h) && i < h.cfg.n
    ensures i < |h.reached| && ReachedOk(LandedHistory(h, i, r, disk))
  {
    LandParts(h, i, r, disk);
    OwnAckHeld(h, i, r);
    hide RepOk, OwnAck, Raise, LeadsOk;
    RaiseIsLater(h.reached, i, disk.view);
    var h' := LandedHistory(h, i, r, disk);
    forall w: nat, j: nat, d | DoViewChange(w, j, d) in h'.msgs && j < |h'.reached|
      ensures w <= h'.reached[j]
    {
      if j == i {
        assert DoViewChange(w, i, d) in h.msgs + r.waiting;
      } else {
        assert DoViewChange(w, j, d) in h.msgs;
      }
    }
    forall w: nat | OnRecord(h', w) && h'.cfg.Primary(w) < |h'.reached|
      ensures w <= h'.reached[h'.cfg.Primary(w)]
    {
      if h.views[w].est {
        assert OnRecord(h, w);
      }
    }
  }

  lemma LandedOk(h: History, i: nat, r: Replica, disk: Image)
    requires HistoryOk(h) && RepOk(h, i, r) && MayLand(r, disk) && i < |h.reached|
    ensures Grows(h, LandedHistory(h, i, r, disk)) && HistoryOk(LandedHistory(h, i, r, disk))
  {
    hide RepOk, OwnAck, SentOk, ReportsKeep, ViewsOk, CompletedOk;
    LandParts(h, i, r, disk);
    var h' := LandedHistory(h, i, r, disk);
    EstablishGrows(h, i, disk, h');
    forall m | m in h'.msgs
      ensures SentOk(h', m)
    {
      if m in h.msgs {
        assert SentOk(h, m);
        SentGrows(h, h', m);
      } else {
        LandedSent(h, i, r, disk, m);
      }
    }
    ViewsGrow(h, h');
    CompletedGrows(h, h');
    LandedReports(h, i, r, disk);
    LandedDisks(h, i, r, disk);
  }

  /** The replica with the write it had out on disk, before it counts that. */
  function LandedReplica(r: Replica, disk: Image): Replica
    requires r.out.Some?
  {
    r.(out := None, disk := disk, durable := |r.out.value.log|, waiting := {})
  }

  lemma LandedLeaderOk(h: History, i: nat, r: Replica, disk: Image)
    requires RepOk(h, i, r) && MayLand(r, disk) && i < |h.reached| && Grows(h, LandedHistory(h, i, r, disk))
    ensures LeaderOk(LandedHistory(h, i, r, disk), i, Snapshot(r), r.q, r.early)
  {
    hide RepCore, OwnAck;
    LandParts(h, i, r, disk);
    OwnAckHeld(h, i, r);
    var h' := LandedHistory(h, i, r, disk);
    if Leads(h, i, Snapshot(r)) {
      assert h'.views[r.view].log == h.views[r.view].log;
      forall k | 0 <= k < |r.q.queries|
        ensures QueryOk(h', r.view, r.q.queries[k])
      {
        assert QueryOk(h, r.view, r.q.queries[k]);
      }
      KnowsGrows(h, h', r.view, r.commit);
    }
  }

  lemma LandedSaid(h: History, i: nat, r: Replica, disk: Image)
    requires RepOk(h, i, r) && MayLand(r, disk) && i < |h.reached|
    ensures var h', r' := LandedHistory(h, i, r, disk), LandedReplica(r, disk);
            && AcksOk(h'.msgs, i, Snapshot(r), None, disk, {}, r.outbox)
            && ReportsOk(h', i, r.view, None, disk, {}, r.outbox)
            && SaysMore(Said(h, r), Said(h', r'), i, r.view)
  {
    LandParts(h, i, r, disk);
    OwnAckHeld(h, i, r);
    hide ImagesOk, StatusOk, CatchingUpOk, BoxesOk, RecordedOk, WritesOk, ExecutedOk, ExecutionOk, AckedOk, EarlyOk,
      AnswersOk, LeaderOk, OwnAck, ReportsKeepAcks, OwnReportsKeep;
    var h', r' := LandedHistory(h, i, r, disk), LandedReplica(r, disk);
    assert SaysMore(Said(h, r), Said(h', r'), i, r.view);
    assert OwnReportsKeep(h', Said(h, r), i) by { OwnReportsSame(h, h', Said(h, r), i); }
    SaysMoreOk(h', Said(h, r), Said(h', r'), i, r.view);
    assert h'.msgs + {} + r.outbox == Said(h', r');
    assert h'.msgs + {} == h'.msgs;
  }

  lemma OwnReportsSame(h: History, h': History, said: set<Message>, i: nat)
    requires OwnReportsKeep(h, said, i) && h'.cfg == h.cfg && h'.views.Keys == h.views.Keys
    requires forall v {:trigger h'.views[v]} :: v in h'.views ==> h'.views[v].origin == h.views[v].origin
    ensures OwnReportsKeep(h', said, i)
  {
  }

  lemma LandedImages(h: History, h': History, i: nat, r: Replica, disk: Image)
    requires RepOk(h, i, r) && MayLand(r, disk) && ImagesOk(h', i, Snapshot(r), r.out, r.disk)
    ensures ImagesOk(h', i, Snapshot(r), None, disk)
  {
    hide RepOk, ImageOk;
  }

  lemma LandedPipeline(h: History, i: nat, r: Replica, disk: Image)
    requires RepOk(h, i, r) && MayLand(r, disk)
    ensures WritesOk(|r.flushed|, r.log, r.changed, |r.out.value.log|, disk.log, disk.log)
    ensures ExecutedOk(r.commit, r.log, disk.log, disk.log, r.sm, r.flushed)
    ensures ExecutionOk(h, i, Snapshot(r), r.changed, |r.out.value.log|, disk, disk, |r.sm|)
  {
    hide StatusOk, CatchingUpOk, BoxesOk, RecordedOk, AcksOk, AckedOk, EarlyOk, ReportsOk, AnswersOk, LeaderOk, LeadsOk, Certain, ImageOk;
    if h.cfg.crashes {
      CertainLess(h, i, r.disk.view, |r.sm|, disk.view, |r.sm|);
      if disk.lastNormal < r.lastNormal {
        CertainLess(h, i, disk.view, r.changed.value - 1, disk.view, DurableUpTo(|r.out.value.log|, r.changed));
      }
    }
  }

  lemma LandedStatus(h: History, i: nat, r: Replica, disk: Image)
    requires RepOk(h, i, r) && MayLand(r, disk) && i < |h.reached|
    ensures var h' := LandedHistory(h, i, r, disk);
            && StatusOk(h', i, r.status, Snapshot(r), disk)
            && CatchingUpOk(h', r.status, r.view, r.catchingUp)
            && LeadsOk(h', i, Snapshot(r), disk)
  {
    hide BoxesOk, RecordedOk, AcksOk, AckedOk, EarlyOk, ReportsOk, AnswersOk, LeaderOk, WritesOk, ExecutedOk, ExecutionOk, OwnAck, ImageOk;
  }

  lemma LandedCoreOk(h: History, i: nat, r: Replica, disk: Image)
    requires RepOk(h, i, r) && MayLand(r, disk) && i < |h.reached| && Grows(h, LandedHistory(h, i, r, disk))
    ensures RepCore(LandedHistory(h, i, r, disk), i, LandedReplica(r, disk))
  {
    hide ImagesOk, StatusOk, CatchingUpOk, LeadsOk, AcksOk, ReportsOk, EarlyOk, BoxOk, RecordedOk, AckedOk, WritesOk, ExecutedOk,
      ExecutionOk, AnswersOk, LeaderOk, Grows, OwnAck, SaysMore;
    var h', r' := LandedHistory(h, i, r, disk), LandedReplica(r, disk);
    PartsGrow(h, h', i, r);
    LandedImages(h, h', i, r, disk);
    LandedStatus(h, i, r, disk);
    LandedSaid(h, i, r, disk);
    LandedPipeline(h, i, r, disk);
    ExecutionGrows(h, h', i, Snapshot(r), r.changed, |r.out.value.log|, disk, disk, |r.sm|);
    RecordedGrows(h, h', i, r.status, r.view, Said(h, r), Said(h, r), r.dvcFrom);
    RecordedSaysMore(h', i, r.status, r.view, Said(h, r), Said(h', r'), r.dvcFrom);
    EmptyBox(h', i, disk.lastNormal, disk.log);
  }

  lemma EmptyBox(h: History, i: nat, lastNormal: nat, log: Log)
    ensures BoxOk(h, i, {}, lastNormal, log)
  {
  }

  /** The write is back, before anything counts. */
  lemma LandedKeeps(h: History, i: nat, r: Replica, disk: Image)
    requires HistoryOk(h) && RepOk(h, i, r) && MayLand(r, disk) && i < |h.reached|
    ensures var h1 := LandedHistory(h, i, r, disk); Grows(h, h1) && HistoryOk(h1) && RepOk(h1, i, LandedReplica(r, disk))
  {
    hide HistoryOk, RepCore, LeaderOk, Grows;
    LandedOk(h, i, r, disk);
    LandedCoreOk(h, i, r, disk);
    LandedLeaderOk(h, i, r, disk);
  }

  /** The replica once it has counted its own acknowledgement of what the write holds. */
  function Counted(cfg: Config, i: nat, r: Replica, out: Image): Replica {
    if r.status == Normal && cfg.Primary(r.view) == i && out.lastNormal == r.view then RegisterAck(cfg, i, r, i, DurableOp(r)) else r
  }

  lemma CountedKeeps(h1: History, i: nat, r1: Replica, out: Image)
    requires HistoryOk(h1) && RepOk(h1, i, r1)
    requires r1.status == Normal && h1.cfg.Primary(r1.view) == i && out.lastNormal == r1.view ==>
               (Min(DurableOp(r1), |r1.log|) > 0 ==> Acked(h1, r1.view, Min(DurableOp(r1), |r1.log|), i))
    ensures var r2 := Counted(h1.cfg, i, r1, out);
            var h2 := h1.(completed := Complete(h1.completed, r2));
            && HistoryOk(h2) && RepOk(h2, i, r2) && OnlyCommits(r1, r2)
            && (h2 == h1 || (h1.cfg.Primary(r1.view) == i && Chosen(h1, r1.view, |h2.completed|) && h1.completed <= h2.completed))
  {
    hide HistoryOk, RepOk, Chosen, RegisterAck, Acked;
    CommitWithin(h1, i, r1);
    if r1.status == Normal && h1.cfg.Primary(r1.view) == i && out.lastNormal == r1.view {
      var h2 := RegisterAckKeeps(h1, i, r1, i, DurableOp(r1));
    }
  }

  /** The write is back, and with it what the primary's own acknowledgement commits. */
  lemma LandKeeps(h: History, i: nat, r: Replica, skip: bool) returns (h1: History)
    requires HistoryOk(h) && RepOk(h, i, r) && r.out.Some? && MayLand(r, LandedDisk(r, skip)) && i < |h.reached|
    ensures h1 == LandedHistory(h, i, r, LandedDisk(r, skip)) && Grows(h, h1) && HistoryOk(h1)
    ensures var r' := Persisted(h.cfg, i, r, skip);
            var h' := h1.(completed := Complete(h.completed, r'));
            && HistoryOk(h') && RepOk(h', i, r') && r'.disk == LandedDisk(r, skip)
            && (h' == h1 || (h.cfg.Primary(r.view) == i && Chosen(h1, r.view, |h'.completed|) && h1.completed <= h'.completed))
  {
    hide HistoryOk, RepOk, Chosen, ApplyCommitted, RegisterAck, Grows, OwnAck, Establish, MayLand;
    var disk := LandedDisk(r, skip);
    h1 := LandedHistory(h, i, r, disk);
    LandedKeeps(h, i, r, disk);
    var r1 := LandedReplica(r, disk);
    var r2 := Counted(h.cfg, i, r1, r.out.value);
    if r1.status == Normal && h.cfg.Primary(r1.view) == i && r.out.value.lastNormal == r1.view {
      OwnAcked(h, i, r, disk);
    }
    CountedKeeps(h1, i, r1, r.out.value);
    var h2 := h1.(completed := Complete(h1.completed, r2));
    ApplyCommittedOk(h2, i, r2, DurableOp(r1));
    assert Persisted(h.cfg, i, r, skip) == ApplyCommitted(h.cfg, i, r2, DurableOp(r1));
  }

  lemma OwnAcked(h: History, i: nat, r: Replica, disk: Image)
    requires RepOk(h, i, r) && MayLand(r, disk) && i < |h.reached|
    requires r.status == Normal && h.cfg.Primary(r.view) == i && r.out.value.lastNormal == r.view
    ensures var h', r1 := LandedHistory(h, i, r, disk), LandedReplica(r, disk);
            Min(DurableOp(r1), |r1.log|) > 0 ==> Acked(h', r.view, Min(DurableOp(r1), |r1.log|), i)
  {
    hide RepOk;
    var r1 := LandedReplica(r, disk);
    if DurableOp(r1) >= 0 {
      assert PrepareOk(r.view, DurableOp(r1), i) in LandedHistory(h, i, r, disk).msgs;
    }
  }

  lemma LandApart(h: History, i: nat, r: Replica, disk: Image, j: nat)
    requires RepOk(h, i, r) && MayLand(r, disk) && i < |h.reached| && Grows(h, LandedHistory(h, i, r, disk))
    requires j != i && j < |h.reached|
    ensures Apart(h, LandedHistory(h, i, r, disk), j)
  {
    hide RepOk, OwnAck;
    LandParts(h, i, r, disk);
    OwnAckHeld(h, i, r);
  }

  /** What a primary commits, the other leaders know of, or a later view is on record. */
  lemma CommitApart(h: History, h': History, v: nat, j: nat, r: Replica)
    requires HistoryOk(h) && RepOk(h, j, r) && h.cfg.Primary(v) != j
    requires h' == h.(completed := h'.completed) && h.completed <= h'.completed && Chosen(h, v, |h'.completed|)
    ensures RepOk(h', j, r)
  {
    hide RepCore, Chosen, MsgsOk, ViewsOk, ReportsKeep, CompletedOk, ReachedOk;
    assert j < |h.reached| by { CoreInRange(h, j, r); }
    if Leads(h, j, Snapshot(r)) {
      assert v != r.view;
      if v < r.view {
        ChosenKept(h, v, |h'.completed|, r.view);
      } else {
        ChosenOnRecord(h, v, |h'.completed|);
        assert OnRecord(h', v);
      }
    }
    RepApart(h, h', j, r);
  }
}
