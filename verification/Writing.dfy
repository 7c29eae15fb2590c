/** Writes taken, flushes, and messages that leave early. */
module Writing {
  import opened Types
  import opened Quorums
  import opened Protocol
  import opened Cluster
  import opened Invariant
  import opened Growth
  import opened Safety
  import opened Steps
  import opened Entering
  import opened Others
  import opened Handlers
  import opened Reads
  import opened Leading

  lemma TakeKeeps(h: History, i: nat, r: Replica)
    requires RepOk(h, i, r) && r.out.None?
    ensures RepOk(h, i, TakeWrite(r))
  {
    hide StatusOk, LeadsOk, CatchingUpOk, RecordedOk, AckedOk, EarlyOk, AnswersOk, LeaderOk, ImageOk, MsgOk, WritesOk, ExecutionOk, ExecutedOk,
      KeepsAcks, ReportsUpTo, ReportsKeepAcks, OwnReportsKeep;
    var r' := TakeWrite(r);
    assert Said(h, r') == Said(h, r);
    assert h.msgs + r.outbox == Said(h, r);
    assert h.msgs + r'.waiting + r'.outbox == Said(h, r);
    assert h.msgs + r.waiting + r.outbox == Said(h, r);
    TakePipeline(h, i, r);
  }

  lemma TakePipeline(h: History, i: nat, r: Replica)
    requires RepOk(h, i, r)
    ensures WritesOk(|r.flushed|, r.log, None, Max(0, DurableOp(r)), r.log, r.disk.log)
    ensures ExecutedOk(r.commit, r.log, r.log, r.disk.log, r.sm, r.flushed)
    ensures ExecutionOk(h, i, Snapshot(r), None, Max(0, DurableOp(r)), Snapshot(r), r.disk, |r.sm|)
  {
    hide StatusOk, LeadsOk, CatchingUpOk, BoxesOk, AcksOk, ReportsOk, RecordedOk, AckedOk, EarlyOk, AnswersOk, LeaderOk, Certain, WritesOk, Holds;
    var latest := Latest(r.out, r.disk).log;
    DurableHeld(|r.flushed|, r.log, r.changed, r.durable, latest, r.disk.log, DurableOp(r));
    MarkedFromOne(|r.flushed|, r.log, r.changed, r.durable, latest, r.disk.log);
    TakenWrites(|r.flushed|, r.log, Max(0, DurableOp(r)), r.disk.log);
  }

  lemma TakenWrites(flushed: nat, log: Log, durable: nat, disk: Log)
    requires Same(disk, log, flushed, durable) || Same(log, disk, flushed, durable)
    ensures WritesOk(flushed, log, None, durable, log, disk)
  {
  }

  lemma FlushKeeps(h: History, i: nat, r: Replica)
    requires RepOk(h, i, r)
    ensures RepOk(h, i, r.(flushed := r.sm))
  {
    hide ImagesOk, StatusOk, LeadsOk, CatchingUpOk, BoxesOk, AcksOk, ReportsOk, RecordedOk,
      ExecutionOk, AckedOk, EarlyOk, AnswersOk, LeaderOk;
  }

  // ---------------------------------------------------------------------------
  // Early messages

  function Drained(h: History, sent: set<Message>): History { h.(msgs := h.msgs + sent) }

  ghost predicate MayDrain(h: History, r: Replica, sent: set<Message>) {
    sent <= r.early && Gate(h.cfg, r, sent)
  }

  lemma EarlySent(h: History, i: nat, r: Replica, sent: set<Message>, m: Message)
    requires HistoryOk(h) && RepOk(h, i, r) && MayDrain(h, r, sent) && m in sent
    ensures SentOk(h, m)
  {
    hide ImagesOk, StatusOk, CatchingUpOk, BoxesOk, AcksOk, ReportsOk, RecordedOk, WritesOk, ExecutedOk,
      ExecutionOk, AckedOk, AnswersOk, LeaderOk, ViewsOk, MsgsOk, ReportsKeep, CompletedOk, ConfirmsOk, ReachedOk, Certain;
    assert MsgOk(h, i, m);
    assert Sender(m) == i || !m.ConfirmViewOk?;
  }

  lemma DrainedOk(h: History, i: nat, r: Replica, sent: set<Message>)
    requires HistoryOk(h) && RepOk(h, i, r) && MayDrain(h, r, sent)
    ensures Grows(h, Drained(h, sent)) && HistoryOk(Drained(h, sent))
  {
    hide RepOk, SentOk, MsgOk, ViewsOk, ReportsKeep, CompletedOk;
    var h' := Drained(h, sent);
    assert Grows(h, h');
    DrainedSent(h, i, r, sent);
    EarlyKinds(h, i, r);
    ViewsGrow(h, h');
    CompletedGrows(h, h');
    DrainedReports(h, i, sent);
    assert ReachedOk(h') by {
      assert forall w: nat {:trigger OnRecord(h', w)} :: OnRecord(h', w) ==> OnRecord(h, w);
    }
  }

  lemma DrainedSent(h: History, i: nat, r: Replica, sent: set<Message>)
    requires HistoryOk(h) && RepOk(h, i, r) && MayDrain(h, r, sent) && Grows(h, Drained(h, sent))
    ensures MsgsOk(Drained(h, sent))
  {
    hide RepOk, SentOk, Grows, MayDrain;
    var h' := Drained(h, sent);
    forall m | m in h'.msgs
      ensures SentOk(h', m)
    {
      if m in sent {
        EarlySent(h, i, r, sent, m);
      } else {
        assert SentOk(h, m);
      }
      SentGrows(h, h', m);
    }
  }

  lemma EarlyKinds(h: History, i: nat, r: Replica)
    requires RepOk(h, i, r)
    ensures forall m :: m in r.early ==> !m.PrepareOk? && !m.DoViewChange?
  {
    assert EarlyOk(h, i, r.early);
    hide RepOk, MsgOk;
  }

  lemma DrainedReports(h: History, i: nat, early: set<Message>)
    requires ReportsKeep(h) && forall m :: m in early ==> !m.PrepareOk? && !m.DoViewChange?
    ensures ReportsKeep(h.(msgs := h.msgs + early))
  {
    var h' := h.(msgs := h.msgs + early);
    forall w: nat, j: nat, d | ReportKeeps(h.msgs, j, w, d)
      ensures ReportKeeps(h'.msgs, j, w, d)
    {
    }
    forall w | w in h'.views && h'.cfg.Primary(w) in h'.views[w].origin.reports
      ensures ReportKeeps(h'.msgs, h'.cfg.Primary(w), w, h'.views[w].origin.reports[h'.cfg.Primary(w)])
    {
      assert ReportKeeps(h.msgs, h.cfg.Primary(w), w, h.views[w].origin.reports[h.cfg.Primary(w)]);
    }
  }

  /** The replica once `sent` of its early messages have left. */
  function Emptied(r: Replica, sent: set<Message>): Replica { r.(early := r.early - sent, q := r.q.(unsent := false)) }

  lemma DrainLeaderOk(h: History, i: nat, mem: Image, q: Rounds, early: set<Message>, sent: set<Message>)
    requires LeaderOk(h, i, mem, q, early) && sent <= early
    ensures LeaderOk(Drained(h, sent), i, mem, q.(unsent := false), early - sent)
  {
    var h' := Drained(h, sent);
    if Leads(h, i, mem) {
      forall k | 0 <= k < |q.queries|
        ensures QueryOk(h', mem.view, q.queries[k])
      {
        assert QueryOk(h, mem.view, q.queries[k]);
      }
      assert KnowsCompleted(h', mem.view, mem.commit) by {
        if w :| w > mem.view && OnRecord(h, w) {
          assert OnRecord(h', w);
        }
      }
    }
  }

  lemma DrainKeeps(h: History, i: nat, r: Replica, sent: set<Message>)
    requires Grows(h, Drained(h, sent)) && RepOk(h, i, r) && sent <= r.early
    ensures RepOk(Drained(h, sent), i, Emptied(r, sent))
  {
    hide ImagesOk, BoxesOk, ReportsOk, RecordedOk, WritesOk, ExecutedOk, ExecutionOk, AckedOk, AnswersOk, LeaderOk, MsgOk, Grows;
    var h', r' := Drained(h, sent), Emptied(r, sent);
    PartsGrow(h, h', i, r);
    assert SaidSame(h, h', i);
    SaidGrows(h, h', i, r.view, r.out, r.disk, r.waiting, r.outbox);
    RecordedGrows(h, h', i, r.status, r.view, Said(h, r), Said(h', r'), r.dvcFrom);
    DrainLeaderOk(h, i, Snapshot(r), r.q, r.early, sent);
  }

  lemma DrainApart(h: History, i: nat, r: Replica, sent: set<Message>, j: nat)
    requires RepOk(h, i, r) && Grows(h, Drained(h, sent)) && sent <= r.early && j < |h.reached| && j != i
    ensures Apart(h, Drained(h, sent), j)
  {
    assert EarlyOk(h, i, r.early);
    hide RepOk, MsgOk, Grows;
  }
}
