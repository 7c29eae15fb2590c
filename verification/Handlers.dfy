/** Every message a replica handles as a backup keeps its invariant. */
module Handlers {
  import opened Types
  import opened Quorums
  import opened Protocol
  import opened Cluster
  import opened Invariant
  import opened Growth
  import opened Safety
  import opened Steps
  import opened Entering

  /** A step that starts no view and grows no log as a primary. */
  ghost predicate Quiet(h: History, i: nat, r: Replica, r': Replica) {
    RepOk(h, i, r') &&
    (h.cfg.Primary(r'.view) == i && r'.lastNormal == r'.view ==> r.lastNormal == r'.view && r'.log == r.log)
  }

  lemma CatchUpOk(h: History, i: nat, r: Replica, v: nat)
    requires RepOk(h, i, r) && OnRecord(h, v) && v >= r.view && v > r.lastNormal
    ensures Quiet(h, i, r, CatchUp(h.cfg, i, r, v))
  {
    hide RepOk;
    RepFacts(h, i, r);
    if !(r.view == v && r.catchingUp == Some(h.cfg.Primary(v))) {
      var r1 := Leave(r, v, Some(h.cfg.Primary(v)));
      LeaveOk(h, i, r, v, Some(h.cfg.Primary(v)));
      SendEarlyOk(h, i, r1, GetState(i, h.cfg.Primary(v), v, r1.commit));
    }
  }

  lemma DeclineOk(h: History, i: nat, r: Replica, v: nat)
    requires RepOk(h, i, r) && OnRecord(h, v)
    ensures Quiet(h, i, r, Decline(h.cfg, i, r, v))
  {
    hide RepOk;
    RepFacts(h, i, r);
    if v > r.view || (v == r.view && r.status == ViewChange) {
      CatchUpOk(h, i, r, v);
    }
  }

  lemma TransferStatusOk(h: History, i: nat, r: Replica, status: Status)
    requires RepOk(h, i, r) && r.status != ViewChange && status != ViewChange && h.cfg.Primary(r.view) != i
    ensures RepOk(h, i, r.(status := status))
  {
    hide ImagesOk, LeadsOk, BoxesOk, AcksOk, ReportsOk, EarlyOk, LeaderOk, AnswersOk, WritesOk, ExecutedOk, ExecutionOk, AckedOk;
  }

  lemma StateTransferOk(h: History, i: nat, r: Replica)
    requires RepOk(h, i, r) && r.status != ViewChange && h.cfg.Primary(r.view) != i
    ensures Quiet(h, i, r, StateTransferFrom(h.cfg, i, r))
  {
    hide RepOk;
    RepFacts(h, i, r);
    TransferStatusOk(h, i, r, StateTransfer);
    SendEarlyOk(h, i, r.(status := StateTransfer), GetState(i, h.cfg.Primary(r.view), r.view, |r.log|));
  }

  /** What the primary of a view takes for committed, the others may too while they are not past it. */
  lemma AnnouncedChosen(h: History, i: nat, r: Replica, v: nat, c: nat)
    requires Facts(h, i, r) && Announced(h, v, c) && h.cfg.Primary(v) != i && r.view <= v
    ensures ChosenBy(h, v, c)
  {
    CertainChosen(h, h.cfg.Primary(v), v, c, i);
  }

  /** The uncommitted end of a backup's log changes. */
  lemma ReplaceEndOk(h: History, i: nat, r: Replica, log: Log, op: nat)
    requires RepOk(h, i, r) && Holds(h, r.view, log, r.commit) && |log| >= |r.log| && r.commit < op
    requires 1 <= op <= |r.log| + 1 && Same(log, r.log, 0, op - 1) && r.view == r.lastNormal && h.cfg.Primary(r.view) != i
    ensures RepOk(h, i, r.(log := log, changed := MarkChanged(r.changed, op)))
  {
    hide RepOk, Holds, StateHeld;
    SameState(h, i, r, r.commit, log);
    ChangeLogOk(h, i, r, log, op, r.sm, r.flushed, r.commit);
    assert r.(log := log, changed := MarkChanged(r.changed, op), commit := r.commit, sm := r.sm, flushed := r.flushed)
        == r.(log := log, changed := MarkChanged(r.changed, op));
  }

  lemma AppendOk(h: History, i: nat, r: Replica, e: LogEntry)
    requires RepOk(h, i, r) && r.view == r.lastNormal && h.cfg.Primary(r.view) != i && r.view in h.views
    requires |r.log| < |h.views[r.view].log| && h.views[r.view].log[|r.log|] == e
    ensures RepOk(h, i, Append(r, e))
  {
    RepFacts(h, i, r);
    hide RepOk;
    ReplaceEndOk(h, i, r, r.log + [e], |r.log| + 1);
  }

  lemma PrepareKeeps(h: History, i: nat, r: Replica, v: nat, op: nat, e: LogEntry, c: nat)
    requires HistoryOk(h) && RepOk(h, i, r) && SentOk(h, Prepare(v, op, e, c))
    ensures Quiet(h, i, r, OnPrepare(h.cfg, i, r, v, op, e, c))
  {
    hide RepOk, HistoryOk;
    RepFacts(h, i, r);
    if !Accepts(h.cfg, i, r, v) {
      DeclineOk(h, i, r, v);
    } else if op > |r.log| + 1 {
      StateTransferOk(h, i, r);
    } else {
      var r1 := if op == |r.log| + 1 then Append(r, e) else r;
      if op == |r.log| + 1 {
        AppendOk(h, i, r, e);
      }
      AnnouncedChosen(h, i, r, v, c);
      ChosenByLess(h, v, c, v, Min(c, |r1.log|));
      CommitUpToOk(h, i, r1, Min(c, |r1.log|));
      SendPrepareOkOk(h, i, CommitUpTo(h.cfg, i, r1, Min(c, |r1.log|)));
    }
  }

  lemma CommitKeeps(h: History, i: nat, r: Replica, v: nat, c: nat)
    requires HistoryOk(h) && RepOk(h, i, r) && SentOk(h, Commit(v, c))
    ensures Quiet(h, i, r, OnCommit(h.cfg, i, r, v, c))
  {
    hide RepOk, HistoryOk;
    RepFacts(h, i, r);
    if !Accepts(h.cfg, i, r, v) {
      DeclineOk(h, i, r, v);
    } else if c > |r.log| {
      StateTransferOk(h, i, r);
    } else {
      AnnouncedChosen(h, i, r, v, c);
      CommitUpToOk(h, i, r, c);
    }
  }

  lemma GetStateKeeps(h: History, i: nat, r: Replica, from: nat, to: nat, v: nat, op: nat)
    requires RepOk(h, i, r) && SentOk(h, GetState(from, to, v, op)) && to == i
    ensures Quiet(h, i, r, OnGetState(i, r, from, v, op))
  {
    hide RepOk;
    RepFacts(h, i, r);
    if v == r.view && op <= |r.log| && (r.status == Normal || (r.status == ViewChange && r.dvcSent && r.catchingUp == None)) {
      var m := NewState(i, from, v, op, r.log[op..], r.commit);
      assert r.log[op..] == h.views[v].log[op..op + |r.log[op..]|];
      SendEarlyOk(h, i, r, m);
    }
  }

  lemma NewStateKeeps(h: History, i: nat, r: Replica, from: nat, v: nat, start: nat, entries: Log, c: nat)
    requires HistoryOk(h) && RepOk(h, i, r) && SentOk(h, NewState(from, i, v, start, entries, c))
    ensures Quiet(h, i, r, OnNewState(h.cfg, i, r, v, start, entries, c))
  {
    hide RepOk, HistoryOk, ChosenBy, InstallState;
    RepFacts(h, i, r);
    assert Stretch(h, v, start, entries);
    if v == r.view && r.status == StateTransfer && start + |entries| > |r.log| && start <= |r.log| {
      AnnouncedChosen(h, i, r, v, c);
      NewStateInViewOk(h, i, r, start, entries, c);
    } else if v == r.view && r.status == ViewChange && r.catchingUp.Some? && start <= r.commit {
      AnnouncedChosen(h, i, r, v, c);
      CaughtUpOk(h, i, r, start, entries, c);
    }
  }

  /** A stretch that reaches past the log within the view, merged into it. */
  lemma MergeInViewOk(h: History, i: nat, r: Replica, start: nat, entries: Log)
    requires RepOk(h, i, r) && r.status == StateTransfer && Stretch(h, r.view, start, entries)
    requires start <= |r.log| < start + |entries|
    ensures RepOk(h, i, Merge(r, start, entries))
    ensures var r1 := Merge(r, start, entries);
            r1 == r.(log := r1.log, changed := r1.changed) && |r1.log| == start + |entries|
  {
    RepFacts(h, i, r);
    hide RepOk, Holds, Taken, Same, Merge, Certain, Stretch;
    var keep := Max(start, r.commit);
    var log := Taken(r.log, keep, start, entries);
    TakenMerge(r, start, entries);
    FactsHold(h, i, r);
    HoldsParts(h, r.view, r.log, r.commit, keep);
    TakenHolds(h, r.view, r.log, keep, r.commit, start, entries);
    hide Facts;
    ReplaceEndOk(h, i, r, log, keep + 1);
  }

  lemma HoldsParts(h: History, v: nat, log: Log, c: nat, n: nat)
    requires Holds(h, v, log, c) && n <= |log|
    ensures v in h.views && Same(log, h.completed, 0, c) && Same(log, h.views[v].log, c, n)
  {
  }

  lemma TakenMerge(r: Replica, start: nat, entries: Log)
    requires r.commit <= |r.log| && start <= |r.log| < start + |entries|
    ensures var log, keep := Taken(r.log, Max(start, r.commit), start, entries), Max(start, r.commit);
            Merge(r, start, entries) == r.(log := log, changed := MarkChanged(r.changed, keep + 1)) && |log| == start + |entries|
  {
  }

  lemma NewStateInViewOk(h: History, i: nat, r: Replica, start: nat, entries: Log, c: nat)
    requires HistoryOk(h) && RepOk(h, i, r) && r.status == StateTransfer && Stretch(h, r.view, start, entries)
    requires start <= |r.log| < start + |entries| && c <= start + |entries| && ChosenBy(h, r.view, c)
    ensures Quiet(h, i, r, InstallState(h.cfg, i, r, start, entries, c))
  {
    hide RepOk, HistoryOk, Merge, CommitUpTo, ChosenBy;
    RepFacts(h, i, r);
    MergeInViewOk(h, i, r, start, entries);
    CommitTransferOk(h, i, Merge(r, start, entries), c);
  }

  /** A state transfer ends: what its message says is committed is, and the log is acknowledged. */
  lemma CommitTransferOk(h: History, i: nat, r: Replica, c: nat)
    requires HistoryOk(h) && RepOk(h, i, r) && r.status == StateTransfer && c <= |r.log| && ChosenBy(h, r.view, c)
    ensures var r' := SendPrepareOk(i, CommitUpTo(h.cfg, i, r, c).(status := Normal));
            RepOk(h, i, r') && r'.view == r.view && h.cfg.Primary(r.view) != i
  {
    hide RepOk, HistoryOk, CommitUpTo, ChosenBy;
    RepFacts(h, i, r);
    CommitUpToOk(h, i, r, c);
    TransferStatusOk(h, i, CommitUpTo(h.cfg, i, r, c), Normal);
    SendPrepareOkOk(h, i, CommitUpTo(h.cfg, i, r, c).(status := Normal));
  }

  lemma CaughtUpOk(h: History, i: nat, r: Replica, start: nat, entries: Log, c: nat)
    requires HistoryOk(h) && RepOk(h, i, r) && r.status == ViewChange && r.catchingUp.Some?
    requires Stretch(h, r.view, start, entries) && start <= r.commit && OnRecord(h, r.view)
    requires c <= start + |entries| && ChosenBy(h, r.view, c)
    ensures Quiet(h, i, r, InstallState(h.cfg, i, r, start, entries, c))
  {
    assert h.cfg.Primary(r.view) != i && r.lastNormal < r.view by { hide RepOk; RepFacts(h, i, r); }
    assert RepOk(h, i, r.(catchingUp := None)) by { NotCatchingUpOk(h, i, r); }
    hide RepOk, HistoryOk, EnterNormal, CommitUpTo, Merge, ChosenBy, Stretch;
    InstallOk(h, i, r.(catchingUp := None), r.view, start, entries, c);
    CaughtUpShape(r, start, entries);
    var r2 := EnterNormal(CommitUpTo(h.cfg, i, Merge(r, start, entries).(catchingUp := None), c));
    EnteredView(h.cfg, i, Merge(r, start, entries).(catchingUp := None), c);
    SendPrepareOkOk(h, i, r2);
  }

  lemma CaughtUpShape(r: Replica, start: nat, entries: Log)
    ensures Merge(r.(catchingUp := None), start, entries).(view := r.view) == Merge(r, start, entries).(catchingUp := None)
    ensures Merge(r, start, entries).view == r.view
  {
  }

  lemma NotCatchingUpOk(h: History, i: nat, r: Replica)
    requires RepOk(h, i, r)
    ensures RepOk(h, i, r.(catchingUp := None))
  {
    hide ImagesOk, StatusOk, LeadsOk, BoxesOk, AcksOk, ReportsOk, RecordedOk, EarlyOk, LeaderOk, AnswersOk, WritesOk,
      ExecutedOk, ExecutionOk, AckedOk;
  }

  /** Answering queries leaves the view and the log. */
  lemma {:induction false} ExecuteQueriesFrame(cfg: Config, i: nat, r: Replica)
    ensures OnlyAnswers(r, ExecuteQueries(cfg, i, r))
    decreases |r.q.queries|
  {
    if cfg.Primary(r.view) == i && r.status == Normal && r.q.queries != []
       && r.q.queries[0].round <= r.q.done && r.q.queries[0].op <= |r.sm| {
      ExecuteQueriesFrame(cfg, i, r.(q := r.q.(queries := r.q.queries[1..]),
                                     answers := r.answers + [Answer(r.q.queries[0].id, r.q.queries[0].floor, r.sm)]));
    }
  }

  lemma EnteredView(cfg: Config, i: nat, r: Replica, c: nat)
    ensures var r' := EnterNormal(CommitUpTo(cfg, i, r, c));
            r'.view == r'.lastNormal == r.view && r'.log == r.log
  {
    var to := Min(c, DurableOp(r));
    ExecuteQueriesFrame(cfg, i, Execute(r.(commit := c), to));
  }

  lemma StartViewKeeps(h: History, i: nat, r: Replica, v: nat, log: Log, c: nat)
    requires HistoryOk(h) && RepOk(h, i, r) && SentOk(h, StartView(v, log, c)) && h.cfg.Primary(v) != i
    ensures Quiet(h, i, r, OnStartView(h.cfg, i, r, v, log, c))
  {
    hide RepOk, ViewsOk, ReportsKeep, MsgsOk, CompletedOk, ConfirmsOk, EnterNormal, CommitUpTo;
    RepFacts(h, i, r);
    if v > r.view || (v == r.view && r.status == ViewChange) {
      assert log == h.views[v].log[0..0 + |log|];
      AnnouncedChosen(h, i, r, v, c);
      InstallOk(h, i, r, v, 0, log, c);
      EnteredView(h.cfg, i, Merge(r, 0, log).(view := v), c);
      SendPrepareOkOk(h, i, EnterNormal(CommitUpTo(h.cfg, i, Merge(r, 0, log).(view := v), c)));
    }
  }

  lemma TimeoutKeeps(h: History, i: nat, r: Replica)
    requires RepOk(h, i, r)
    ensures Quiet(h, i, r, OnTimeout(h.cfg, i, r))
  {
    hide RepOk;
    RepFacts(h, i, r);
    if !(r.status == Normal && h.cfg.Primary(r.view) == i) {
      BeginViewChangeOk(h, i, r, r.view + 1);
    }
  }

  lemma IdleTransferKeeps(h: History, i: nat, r: Replica)
    requires RepOk(h, i, r)
    ensures Quiet(h, i, r, OnIdleTransfer(h.cfg, i, r))
  {
    hide RepOk;
    RepFacts(h, i, r);
    if r.status == StateTransfer {
      StateTransferOk(h, i, r);
    }
  }

  lemma IdlePrimaryKeeps(h: History, i: nat, r: Replica, due: nat)
    requires RepOk(h, i, r)
    ensures Quiet(h, i, r, OnIdlePrimary(h.cfg, i, r, due))
  {
    hide RepOk;
    RepFacts(h, i, r);
    if r.status == Normal && h.cfg.Primary(r.view) == i {
      var r1 := SendEarly(r, Commit(r.view, r.commit));
      SendEarlyOk(h, i, r, Commit(r.view, r.commit));
      var r2 := r1;
      if r.commit < due <= |r.log| {
        r2 := SendEarly(r1, Prepare(r.view, due, r.log[due - 1], r.commit));
        SendEarlyOk(h, i, r1, Prepare(r.view, due, r.log[due - 1], r.commit));
      }
      if r.q.round > r.q.done {
        SendEarlyOk(h, i, r2, ConfirmView(r.view, r.q.round));
      }
    }
  }
}
