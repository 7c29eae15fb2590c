/** Each thing a replica does keeps the invariant of that replica. */
module Steps {
  import opened Types
  import opened Quorums
  import opened Protocol
  import opened Cluster
  import opened Invariant
  import opened Growth
  import opened Safety

  lemma SendEarlyOk(h: History, i: nat, r: Replica, m: Message)
    requires RepOk(h, i, r) && MsgOk(h, i, m)
    requires !m.PrepareOk? && !m.DoViewChange? && !m.StartView? && !m.StartViewChange?
    requires m.ConfirmView? ==> h.cfg.Primary(m.view) == i && (m.view == r.view ==> m.round <= r.q.round)
    ensures RepOk(h, i, SendEarly(r, m))
  {
    hide ImagesOk, StatusOk, LeadsOk, CatchingUpOk, BoxesOk, AcksOk, ReportsOk, RecordedOk, WritesOk, ExecutedOk, ExecutionOk, AckedOk, AnswersOk;
  }

  lemma SendOk(h: History, i: nat, r: Replica, m: Message)
    requires RepOk(h, i, r) && MsgOk(h, i, m)
    requires (m.StartViewChange? && m.from == i && m.view <= r.view) || (m.StartView? && m.view == r.lastNormal && h.cfg.Primary(m.view) == i && m.log <= r.log)
    ensures RepOk(h, i, Send(r, m))
  {
    hide ImagesOk, StatusOk, LeadsOk, CatchingUpOk, EarlyOk, WritesOk, ExecutedOk, ExecutionOk, AckedOk, LeaderOk, AnswersOk,
      AcksOk, ReportsOk, BoxOk, RecordedOk, MsgOk;
    SendSaid(h, i, r, m);
    SendBox(h, i, r, m);
  }

  lemma SendSaid(h: History, i: nat, r: Replica, m: Message)
    requires RepOk(h, i, r) && (m.StartView? || (m.StartViewChange? && m.from == i && m.view <= r.view))
    ensures AcksOk(h.msgs, i, Snapshot(r), r.out, r.disk, r.waiting, r.outbox + {m})
    ensures ReportsOk(h, i, r.view, r.out, r.disk, r.waiting, r.outbox + {m})
    ensures RecordedOk(h, i, r.status, r.view, Said(h, Send(r, m)), r.dvcFrom)
  {
    hide ImagesOk, StatusOk, LeadsOk, CatchingUpOk, EarlyOk, WritesOk, ExecutedOk, ExecutionOk, AckedOk, LeaderOk, AnswersOk, BoxesOk, ReportOk;
    assert Said(h, Send(r, m)) == Said(h, r) + {m};
    assert h.msgs + r.waiting + (r.outbox + {m}) == Said(h, r) + {m};
  }

  lemma SendBox(h: History, i: nat, r: Replica, m: Message)
    requires RepOk(h, i, r) && MsgOk(h, i, m)
    requires m.StartViewChange? || (m.StartView? && m.view == r.lastNormal && h.cfg.Primary(m.view) == i && m.log <= r.log)
    ensures BoxOk(h, i, r.outbox + {m}, r.lastNormal, r.log)
  {
    hide ImagesOk, StatusOk, LeadsOk, CatchingUpOk, EarlyOk, WritesOk, ExecutedOk, ExecutionOk, AckedOk, LeaderOk, AnswersOk, AcksOk,
      ReportsOk, RecordedOk, MsgOk;
  }

  /** `more` says no more than `said` but for acknowledgements in view `view` or later. */
  ghost predicate SaysMore(said: set<Message>, more: set<Message>, i: nat, view: nat) {
    && (forall w: nat, d :: DoViewChange(w, i, d) in more ==> DoViewChange(w, i, d) in said)
    && (forall w: nat :: StartViewChange(w, i) in more ==> StartViewChange(w, i) in said)
    && (forall v: nat, m: nat :: PrepareOk(v, m, i) in more ==> PrepareOk(v, m, i) in said || v >= view)
  }

  lemma SaysMoreKeeps(said: set<Message>, more: set<Message>, i: nat, view: nat, w: nat, d: Report)
    requires SaysMore(said, more, i, view) && ReportKeeps(said, i, w, d) && w <= view
    ensures ReportKeeps(more, i, w, d)
  {
  }

  lemma SaysMoreOk(h: History, said: set<Message>, more: set<Message>, i: nat, view: nat)
    requires SaysMore(said, more, i, view)
    requires ReportsUpTo(said, i, view) && ReportsKeepAcks(said, i) && OwnReportsKeep(h, said, i)
    requires forall v {:trigger h.views[v]} :: v in h.views && h.cfg.Primary(v) == i ==> v <= view
    ensures ReportsUpTo(more, i, view) && ReportsKeepAcks(more, i) && OwnReportsKeep(h, more, i)
  {
    forall w: nat, d | DoViewChange(w, i, d) in more
      ensures ReportKeeps(more, i, w, d)
    {
      SaysMoreKeeps(said, more, i, view, w, d);
    }
    forall w | w in h.views && h.cfg.Primary(w) == i && i in h.views[w].origin.reports
      ensures ReportKeeps(more, i, w, h.views[w].origin.reports[i])
    {
      SaysMoreKeeps(said, more, i, view, w, h.views[w].origin.reports[i]);
    }
  }

  lemma RecordedSaysMore(h: History, i: nat, status: Status, view: nat, said: set<Message>, more: set<Message>, dvcFrom: map<nat, Report>)
    requires RecordedOk(h, i, status, view, said, dvcFrom) && SaysMore(said, more, i, view)
    ensures RecordedOk(h, i, status, view, more, dvcFrom)
  {
    if i in dvcFrom {
      SaysMoreKeeps(said, more, i, view, view, dvcFrom[i]);
    }
  }

  lemma SendPrepareOkOk(h: History, i: nat, r: Replica)
    requires RepOk(h, i, r) && r.lastNormal == r.view && OnRecord(h, r.view)
    ensures RepOk(h, i, SendPrepareOk(i, r))
  {
    hide ImagesOk, CatchingUpOk, EarlyOk, WritesOk, ExecutedOk, ExecutionOk, AckedOk, LeaderOk, AnswersOk, RecordedOk,
      ReportsKeepAcks, OwnReportsKeep, ReportsUpTo;
    var r' := SendPrepareOk(i, r);
    assert SaysMore(Said(h, r), Said(h, r'), i, r.view);
    SaysMoreOk(h, Said(h, r), Said(h, r'), i, r.view);
    RecordedSaysMore(h, i, r.status, r.view, Said(h, r), Said(h, r'), r.dvcFrom);
  }

  // ---------------------------------------------------------------------------
  // Commit and execution

  /** A query that may go reads every op that had completed when it arrived: a quorum confirmed
      its round, so no quorum had gone past the view. */
  lemma QueryReads(h: History, i: nat, mem: Image, disk: Image, q: Rounds, early: set<Message>, sm: Log, x: WaitingQuery)
    requires h.cfg.Valid() && StatusOk(h, i, Normal, mem, disk) && Leads(h, i, mem) && LeadsOk(h, i, mem, disk)
    requires RoundsOk(h, i, mem.view, q, early) && QueryOk(h, mem.view, x) && disk.view <= mem.view
    requires |q.confirmed| == h.cfg.n && sm <= mem.log && x.round <= q.done && x.op <= |sm|
    ensures x.floor <= sm
  {
    if h.cfg.IsQuorum(x.moved) {
      var j := QuorumsMeet(h.cfg, Reaching(q.confirmed, q.done), x.moved);
    }
  }

  /** Answering queries changes nothing but the queue and the answers. */
  ghost predicate OnlyAnswers(r: Replica, r': Replica) {
    r' == r.(q := r.q.(queries := r'.q.queries), answers := r'.answers)
  }

  /** What a replica has executed is the start of what completed. */
  lemma StateCompleted(h: History, i: nat, r: Replica)
    requires RepOk(h, i, r)
    ensures r.sm <= h.completed && r.flushed <= r.sm
  {
    hide StatusOk, LeadsOk, CatchingUpOk, BoxesOk, AcksOk, ReportsOk, RecordedOk, AckedOk, EarlyOk, LeaderOk, AnswersOk, WritesOk, ExecutionOk;
    assert Same(r.log, h.completed, 0, r.commit);
  }

  lemma {:induction false} ExecuteQueriesOk(h: History, i: nat, r: Replica)
    requires HistoryOk(h) && RepOk(h, i, r)
    ensures OnlyAnswers(r, ExecuteQueries(h.cfg, i, r))
    ensures RepOk(h, i, ExecuteQueries(h.cfg, i, r))
    decreases |r.q.queries|
  {
    hide CatchingUpOk, BoxesOk, AcksOk, ReportsOk, RecordedOk, WritesOk, ExecutionOk, AckedOk, EarlyOk,
      ViewsOk, MsgsOk, ReportsKeep, CompletedOk, ConfirmsOk, ReachedOk;
    StateCompleted(h, i, r);
    if h.cfg.Primary(r.view) == i && r.status == Normal && r.q.queries != []
       && r.q.queries[0].round <= r.q.done && r.q.queries[0].op <= |r.sm| {
      var r' := r.(q := r.q.(queries := r.q.queries[1..]), answers := r.answers + [Answer(r.q.queries[0].id, r.q.queries[0].floor, r.sm)]);
      assert Leads(h, i, Snapshot(r));
      QueryReads(h, i, Snapshot(r), r.disk, r.q, r.early, r.sm, r.q.queries[0]);
      assert RepOk(h, i, r');
      ExecuteQueriesOk(h, i, r');
    }
  }

  /** What `ApplyCommitted` leaves before it answers queries. */
  function Execute(r: Replica, to: int): Replica {
    if to <= |r.sm| then r else if to > |r.log| then r.(failed := true) else r.(sm := r.sm + r.log[|r.sm|..to])
  }

  /** What the pipeline takes to be durable is the same in memory, in the write out and on disk,
      past what is flushed. */
  lemma DurableHeld(flushed: nat, log: Log, changed: Option<nat>, durable: nat, latest: Log, disk: Log, to: int)
    requires WritesOk(flushed, log, changed, durable, latest, disk) && to <= DurableUpTo(durable, changed)
    ensures Same(log, latest, flushed, to) && Same(log, disk, flushed, to) && Same(disk, latest, flushed, to)
  {
  }

  lemma ExecuteOk(h: History, i: nat, r: Replica, to: int)
    requires RepOk(h, i, r) && to <= r.commit && to <= DurableOp(r)
    ensures RepOk(h, i, Execute(r, to))
    ensures Execute(r, to) == r.(sm := Execute(r, to).sm)
  {
    hide StatusOk, LeadsOk, CatchingUpOk, BoxesOk, AcksOk, ReportsOk, RecordedOk, AckedOk, EarlyOk, LeaderOk, AnswersOk, WritesOk, Certain;
    if to > |r.sm| {
      DurableHeld(|r.flushed|, r.log, r.changed, r.durable, Latest(r.out, r.disk).log, r.disk.log, to);
      assert r.sm + r.log[|r.sm|..to] == r.log[..to];
      if h.cfg.crashes {
        if r.disk.lastNormal == r.lastNormal {
          CertainLess(h, i, r.disk.view, r.commit, r.disk.view, to);
        } else {
          CertainLess(h, i, r.disk.view, DurableOp(r), r.disk.view, to);
        }
      }
    }
  }

  lemma ApplyCommittedOk(h: History, i: nat, r: Replica, op: int)
    requires HistoryOk(h) && RepOk(h, i, r) && op <= DurableOp(r)
    ensures RepOk(h, i, ApplyCommitted(h.cfg, i, r, op))
    ensures var r' := ApplyCommitted(h.cfg, i, r, op);
            r' == r.(sm := r'.sm, q := r.q.(queries := r'.q.queries), answers := r'.answers)
  {
    hide RepOk, HistoryOk;
    var to := Min(r.commit, op);
    ExecuteOk(h, i, r, to);
    ExecuteQueriesOk(h, i, Execute(r, to));
  }

  /** The first `c` ops of view `v` were chosen by then, and are what completed. */
  ghost predicate Decided(h: History, v: nat, c: nat) {
    v in h.views && ChosenBy(h, v, c) && Same(h.views[v].log, h.completed, 0, c)
  }

  lemma DecidedOk(h: History, v: nat, c: nat)
    requires HistoryOk(h) && v in h.views && ChosenBy(h, v, c)
    ensures Decided(h, v, c) && c <= |h.views[v].log|
  {
    hide ViewsOk, ReportsKeep, CompletedOk, MsgsOk, ReachedOk, ConfirmsOk;
    ChosenByHolds(h, v, c, v);
  }

  /** What is committed joins what completed. */
  lemma HoldsMore(h: History, v: nat, log: Log, c: nat, c': nat)
    requires Holds(h, v, log, c) && Decided(h, v, c') && c <= c' <= |log|
    ensures Holds(h, v, log, c')
  {
  }

  lemma CommitExecution(h: History, i: nat, mem: Image, changed: Option<nat>, durable: nat, latest: Image, disk: Image, sm: nat, c: nat)
    requires ExecutionOk(h, i, mem, changed, durable, latest, disk, sm) && ChosenBy(h, mem.view, c)
    requires mem.lastNormal == mem.view && disk.view <= latest.view <= mem.view && latest.lastNormal <= latest.view && disk.lastNormal <= disk.view
    ensures ExecutionOk(h, i, mem.(commit := c), changed, durable, latest, disk, sm)
  {
    hide Certain, ChosenBy;
    ChosenByCertain(h, i, mem.view, c);
  }

  lemma CommitCore(h: History, i: nat, r: Replica, c: nat)
    requires RepCore(h, i, r) && r.commit <= c <= |r.log| && r.lastNormal == r.view && Decided(h, r.view, c)
    ensures RepCore(h, i, r.(commit := c))
  {
    hide CatchingUpOk, BoxesOk, ReportsOk, RecordedOk, EarlyOk, AnswersOk, WritesOk, ExecutionOk, AcksOk, LeadsOk, AckedOk, Certain, Holds, Decided;
    HoldsMore(h, r.view, r.log, r.commit, c);
    assert ChosenBy(h, r.view, c) by { DecidedParts(h, r.view, c); }
    ChosenByCertain(h, i, r.view, c);
    CommitExecution(h, i, Snapshot(r), r.changed, r.durable, Latest(r.out, r.disk), r.disk, |r.sm|, c);
    CommitFrame(h, i, r, c);
  }

  /** What does not depend on the commit number. */
  lemma CommitFrame(h: History, i: nat, r: Replica, c: nat)
    requires RepCore(h, i, r)
    ensures var mem := Snapshot(r).(commit := c);
            StatusOk(h, i, r.status, mem, r.disk) && LeadsOk(h, i, mem, r.disk) && AckedOk(h, i, mem, r.acked)
            && AcksOk(h.msgs, i, mem, r.out, r.disk, r.waiting, r.outbox)
  {
    hide CatchingUpOk, BoxesOk, ReportsOk, RecordedOk, EarlyOk, AnswersOk, WritesOk, ExecutionOk, ImagesOk;
  }

  lemma DecidedParts(h: History, v: nat, c: nat)
    requires Decided(h, v, c)
    ensures ChosenBy(h, v, c)
  {
  }

  lemma CommitUpToOk(h: History, i: nat, r: Replica, c: nat)
    requires HistoryOk(h) && RepOk(h, i, r) && c <= |r.log| && r.lastNormal == r.view && ChosenBy(h, r.view, c)
    ensures RepOk(h, i, CommitUpTo(h.cfg, i, r, c))
    ensures var r' := CommitUpTo(h.cfg, i, r, c);
            r' == r.(commit := Max(r.commit, c), sm := r'.sm, q := r.q.(queries := r'.q.queries), answers := r'.answers)
  {
    hide RepCore, HistoryOk, Decided;
    if c > r.commit {
      assert r.view in h.views by { hide LeaderOk; RepInView(h, i, r); }
      DecidedOk(h, r.view, c);
      CommitCore(h, i, r, c);
      assert LeaderOk(h, i, Snapshot(r.(commit := c)), r.q, r.early) by { CommitLeader(h, i, Snapshot(r), r.q, r.early, c); }
      ApplyCommittedOk(h, i, r.(commit := c), DurableOp(r));
    }
  }

  lemma RepInView(h: History, i: nat, r: Replica)
    requires RepCore(h, i, r)
    ensures r.lastNormal in h.views
  {
  }

  lemma CommitLeader(h: History, i: nat, mem: Image, q: Rounds, early: set<Message>, c: nat)
    requires LeaderOk(h, i, mem, q, early) && mem.commit <= c
    ensures LeaderOk(h, i, mem.(commit := c), q, early)
  {
  }
}
