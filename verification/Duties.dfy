/** What a replica owes whoever sends it a message, in every state that a run can come to: the entry it is
    sent is in its log and acknowledged, the log it is asked for is sent, the view it hears of is joined. */
module Duties {
  import opened Types
  import opened Quorums
  import opened Protocol
  import opened Cluster
  import opened Invariant
  import opened Entering
  import opened Steps
  import opened Running
  import opened Agreement
  import opened Answering
  import opened Continuing
  import opened Reviving
  import opened Healing

  /** Replica `i`, which may get `m` in state `k` of the run, becomes `r'` with it. */
  ghost predicate Gets(cfg: Config, run: seq<System>, k: nat, i: nat, m: Message, r': Replica) {
    && InRun(cfg, run, k, i) && i < |run[k].reps| && m in run[k].h.msgs && SentTo(cfg, i, m)
    && r' == OnMessage(cfg, i, At(run, k, i), m)
  }

  /** So do the steps of the run have it. */
  lemma GetsIsStep(cfg: Config, run: seq<System>, k: nat, i: nat, m: Message, r': Replica)
    requires Gets(cfg, run, k, i, m, r')
    ensures Enabled(run[k], Act(i, Receive(m))) && Step(run[k], Act(i, Receive(m))).reps[i] == r'
  {
    hide IsRun, HistoryOk, RepOk, OnMessage;
    StateOk(cfg, run, k, i);
  }

  lemma Facts(cfg: Config, run: seq<System>, k: nat, i: nat)
    requires InRun(cfg, run, k, i)
    ensures i < |run[k].reps|
    ensures var h, r := run[k].h, At(run, k, i);
            && r.commit <= |r.log| && r.lastNormal in h.views && Holds(h, r.lastNormal, r.log, r.commit)
            && (r.status != ViewChange <==> r.lastNormal == r.view) && (r.status == StateTransfer ==> cfg.Primary(r.view) != i)
            && (r.catchingUp.Some? ==> r.catchingUp == Some(cfg.Primary(r.view)) && r.status == ViewChange)
            && |r.acked| == cfg.n && |r.q.confirmed| == cfg.n
  {
    hide IsRun, HistoryOk;
    StateOk(cfg, run, k, i);
  }

  lemma Sent(cfg: Config, run: seq<System>, k: nat, m: Message)
    requires cfg.Sound() && IsRun(cfg, run) && k < |run| && m in run[k].h.msgs
    ensures SentOk(run[k].h, m)
  {
    hide IsRun, HistoryOk, RepOk, SentOk;
    StateOk(cfg, run, k, 0);
    SentPart(run[k].h, m);
  }

  // ---------------------------------------------------------------------------
  // Prepares and commits

  /** A replica that is normal in the view of a `Prepare` it has a place for has the entry at its op after it,
      unless it had committed that op, has acknowledged it, and has committed what the primary had as far
      as its log goes. */
  lemma PrepareTaken(cfg: Config, run: seq<System>, k: nat, i: nat, v: nat, op: nat, e: LogEntry, c: nat, r': Replica)
    requires Gets(cfg, run, k, i, Prepare(v, op, e, c), r')
    requires At(run, k, i).view == v && At(run, k, i).status == Normal && op <= |At(run, k, i).log| + 1
    ensures 1 <= op <= |r'.log| && At(run, k, i).log <= r'.log && r'.view == v && r'.status == Normal
    ensures op > At(run, k, i).commit ==> r'.log[op - 1] == e
    ensures PrepareOk(v, |r'.log|, i) in r'.outbox && r'.commit >= Min(c, |r'.log|)
    ensures var r := At(run, k, i); r'.commit > r.commit ==> |r'.sm| >= Min(r'.commit, Min(DurableOp(r), |r.log|))
  {
    hide IsRun, OnPrepare;
    Facts(cfg, run, k, i);
    Sent(cfg, run, k, Prepare(v, op, e, c));
    var r := At(run, k, i);
    PrepareShape(cfg, i, r, v, op, e, c);
    if r.commit < op <= |r.log| {
      assert r.log[op - 1] == run[k].h.views[v].log[op - 1] == e;
    }
  }

  lemma PrepareShape(cfg: Config, i: nat, r: Replica, v: nat, op: nat, e: LogEntry, c: nat)
    requires Accepts(cfg, i, r, v) && op <= |r.log| + 1 && r.commit <= |r.log|
    ensures var r' := OnPrepare(cfg, i, r, v, op, e, c);
            && r'.log == (if op == |r.log| + 1 then r.log + [e] else r.log) && r'.view == v && r'.status == Normal
            && PrepareOk(v, |r'.log|, i) in r'.outbox && r'.commit == Max(r.commit, Min(c, |r'.log|))
            && (r'.commit > r.commit ==> |r'.sm| >= Min(r'.commit, Min(DurableOp(r), |r.log|)))
  {
    hide CommitUpTo;
    var r1 := if op == |r.log| + 1 then Append(r, e) else r;
    CommitRuns(cfg, i, r1, Min(c, |r1.log|));
  }

  /** One that has no place for it, or hears of a commit number past its log, asks the primary for what it lacks. */
  lemma GapAsked(cfg: Config, run: seq<System>, k: nat, i: nat, m: Message, r': Replica)
    requires Gets(cfg, run, k, i, m, r') && At(run, k, i).view == m.view && At(run, k, i).status == Normal
    requires (m.Prepare? && m.op > |At(run, k, i).log| + 1) || (m.Commit? && m.commit > |At(run, k, i).log|)
    ensures r'.status == StateTransfer && GetState(i, cfg.Primary(m.view), m.view, |r'.log|) in r'.early && r'.log == At(run, k, i).log
  {
  }

  lemma CommitTaken(cfg: Config, run: seq<System>, k: nat, i: nat, v: nat, c: nat, r': Replica)
    requires Gets(cfg, run, k, i, Commit(v, c), r')
    requires At(run, k, i).view == v && At(run, k, i).status == Normal && c <= |At(run, k, i).log|
    ensures r'.commit >= c && r'.log == At(run, k, i).log && r'.view == v && r'.status == Normal
    ensures |r'.sm| >= Min(c, DurableOp(r')) || c <= At(run, k, i).commit
  {
    hide CommitUpTo, IsRun;
    CommitRuns(cfg, i, At(run, k, i), c);
  }

  /** A replica that hears from the primary of a view it is not in, or has not entered, catches up with it. */
  lemma LaterViewJoined(cfg: Config, run: seq<System>, k: nat, i: nat, m: Message, r': Replica)
    requires Gets(cfg, run, k, i, m, r') && (m.Prepare? || m.Commit?)
    requires var r := At(run, k, i); m.view > r.view || (m.view == r.view && r.status == ViewChange)
    ensures r'.view == m.view && r'.status == ViewChange && r'.catchingUp == Some(cfg.Primary(m.view))
    ensures var r := At(run, k, i);
            GetState(i, cfg.Primary(m.view), m.view, r.commit) in r'.early || (r.view == m.view && r.catchingUp.Some?)
  {
    hide IsRun;
    Facts(cfg, run, k, i);
  }

  // ---------------------------------------------------------------------------
  // State transfer

  /** A replica whose log is settled sends it from the op asked for. */
  lemma StateGiven(cfg: Config, run: seq<System>, k: nat, i: nat, j: nat, v: nat, op: nat, r': Replica) returns (entries: Log)
    requires Gets(cfg, run, k, i, GetState(j, i, v, op), r')
    requires var r := At(run, k, i);
             r.view == v && op <= |r.log| && (r.status == Normal || (r.status == ViewChange && r.dvcSent && r.catchingUp.None?))
    ensures var r := At(run, k, i);
            && NewState(i, j, v, op, entries, r.commit) in r'.early && op + |entries| == |r.log|
            && forall x {:trigger entries[x]} :: 0 <= x < |entries| ==> entries[x] == r.log[op + x]
  {
    entries := At(run, k, i).log[op..];
  }

  /** A segment that joins on to what a replica has fills its gap, or brings it into the view: it ends as
      the segment does, holds the segment's entries after what it had committed, and has acknowledged them. */
  lemma StateTaken(cfg: Config, run: seq<System>, k: nat, i: nat, from: nat, v: nat, start: nat, entries: Log, c: nat, r': Replica)
    requires Gets(cfg, run, k, i, NewState(from, i, v, start, entries, c), r') && At(run, k, i).view == v && cfg.Primary(v) != i
    requires var r := At(run, k, i);
             || (r.status == StateTransfer && start <= |r.log| < start + |entries|)
             || (r.status == ViewChange && r.catchingUp.Some? && start <= r.commit <= start + |entries|)
    ensures r'.status == Normal && r'.view == r'.lastNormal == v && |r'.log| == start + |entries| && r'.commit >= c
    ensures forall x {:trigger r'.log[x]} :: Max(start, At(run, k, i).commit) <= x < |r'.log| ==> r'.log[x] == entries[x - start]
    ensures PrepareOk(v, |r'.log|, i) in r'.outbox
  {
    hide CommitUpTo, IsRun;
    Facts(cfg, run, k, i);
    var r := At(run, k, i);
    CommitRuns(cfg, i, Merge(r, start, entries), c);
    CommitRuns(cfg, i, Merge(r, start, entries).(catchingUp := None), c);
  }

  /** A replica that restores a checkpoint has it as its state, durably, and goes on with the entries after it. */
  lemma CheckpointTaken(cfg: Config, run: seq<System>, k: nat, i: nat, m: Message, op: nat)
    requires InRun(cfg, run, k, i) && i < |run[k].reps| && run[k].h.cfg == cfg && Enabled(run[k], Restore(i, m, op)) && cfg.Primary(m.view) != i
    ensures var r' := Step(run[k], Restore(i, m, op)).reps[i];
            && r'.status == Normal && r'.view == r'.lastNormal == m.view && |r'.log| == m.start + |m.entries|
            && r'.flushed == CheckpointOps(At(run, k, i), m, op) && r'.flushed <= r'.sm && |r'.flushed| == op && r'.commit >= Max(op, m.commit)
            && PrepareOk(m.view, |r'.log|, i) in r'.outbox
  {
    hide CommitUpTo, IsRun, Acted;
    var r := Fetched(At(run, k, i), m, op);
    CommitRuns(cfg, i, Merge(r, m.start, m.entries), m.commit);
    CommitRuns(cfg, i, Merge(r, m.start, m.entries).(catchingUp := None), m.commit);
    Facts(cfg, run, k, i);
    RunsOn(cfg, i, Merge(r, m.start, m.entries), m.commit);
    RunsOn(cfg, i, Merge(r, m.start, m.entries).(catchingUp := None), m.commit);
  }

  /** The state machine only goes on. */
  lemma RunsOn(cfg: Config, i: nat, r: Replica, c: nat)
    ensures r.sm <= CommitUpTo(cfg, i, r, c).sm
  {
    hide ExecuteQueries;
    ExecuteFrame(cfg, i, Execute(r.(commit := c), Min(c, DurableOp(r))));
  }

  // ---------------------------------------------------------------------------
  // View changes

  /** A view that is announced is entered, with the log announced after what was committed. */
  lemma AnnouncedTaken(cfg: Config, run: seq<System>, k: nat, i: nat, v: nat, log: Log, c: nat, r': Replica)
    requires Gets(cfg, run, k, i, StartView(v, log, c), r')
    requires var r := At(run, k, i); v > r.view || (v == r.view && r.status == ViewChange)
    ensures r'.status == Normal && r'.view == r'.lastNormal == v && |r'.log| == Max(|log|, At(run, k, i).commit) && r'.commit >= c
    ensures forall x {:trigger r'.log[x]} :: At(run, k, i).commit <= x < |r'.log| ==> r'.log[x] == log[x]
    ensures PrepareOk(v, |r'.log|, i) in r'.outbox
  {
    hide IsRun, OnStartView;
    Facts(cfg, run, k, i);
    hide Gets, Holds;
    AnnouncedShape(cfg, i, At(run, k, i), v, log, c);
    assert r' == OnStartView(cfg, i, At(run, k, i), v, log, c) by { GetsMessage(cfg, run, k, i, StartView(v, log, c), r'); }
  }

  lemma GetsMessage(cfg: Config, run: seq<System>, k: nat, i: nat, m: Message, r': Replica)
    requires Gets(cfg, run, k, i, m, r')
    ensures r' == OnMessage(cfg, i, At(run, k, i), m)
  {
  }

  lemma AnnouncedShape(cfg: Config, i: nat, r: Replica, v: nat, log: Log, c: nat)
    requires r.commit <= |r.log| && (v > r.view || (v == r.view && r.status == ViewChange))
    ensures var r' := OnStartView(cfg, i, r, v, log, c);
            && r'.status == Normal && r'.view == r'.lastNormal == v && |r'.log| == Max(|log|, r.commit) && r'.commit >= c
            && (forall x {:trigger r'.log[x]} :: r.commit <= x < |r'.log| ==> r'.log[x] == log[x])
            && PrepareOk(v, |r'.log|, i) in r'.outbox
  {
    hide CommitUpTo;
    CommitRuns(cfg, i, Merge(r, 0, log).(view := v), c);
  }

  /** A vote for a view that has not started is joined and counted; with votes enough the replica has reported
      what it holds, to the primary or as the primary. */
  lemma VoteCounted(cfg: Config, run: seq<System>, k: nat, i: nat, v: nat, j: nat, r': Replica)
    requires Gets(cfg, run, k, i, StartViewChange(v, j), r')
    requires var r := At(run, k, i); v > r.view || (v == r.view && r.status == ViewChange)
    ensures r'.view == v
    ensures r'.status == ViewChange ==> j in r'.svcFrom
    ensures v > At(run, k, i).view && r'.status == ViewChange ==> StartViewChange(v, i) in r'.outbox
    ensures r'.status == ViewChange && r'.catchingUp.None? && |r'.svcFrom| >= cfg.n / 2 ==> r'.dvcSent
    ensures var r := At(run, k, i);
            r'.dvcSent && !(r.view == v && r.dvcSent) && r'.status == ViewChange ==>
              if cfg.Primary(v) == i then i in r'.dvcFrom && r'.dvcFrom[i] == ReportOf(r) else DoViewChange(v, i, ReportOf(r)) in r'.outbox
  {
    hide IsRun, TryStartView;
    var r := At(run, k, i);
    var r1 := if v > r.view then BeginViewChange(i, r, v) else r;
    var r2 := r1.(svcFrom := r1.svcFrom + {j}, dvcSent := true);
    StartsOwnView(cfg, i, r2.(dvcFrom := r2.dvcFrom[i := ReportOf(r2)]));
    Facts(cfg, run, k, i);
    NoReports(cfg, i, r2.(dvcFrom := r2.dvcFrom[i := ReportOf(r2)]));
  }

  /** A view that is tried for with a report starts. */
  lemma NoReports(cfg: Config, i: nat, r: Replica)
    requires i in r.dvcFrom && i < cfg.n
    ensures TryStartView(cfg, i, r).status == Normal
  {
    hide CommitUpTo, Best, MaxCommit;
  }

  /** A report for a view that has not started is counted by the view's primary, which with a quorum of them
      starts and announces the view. */
  lemma ReportCounted(cfg: Config, run: seq<System>, k: nat, i: nat, v: nat, j: nat, d: Report, r': Replica)
    requires Gets(cfg, run, k, i, DoViewChange(v, j, d), r')
    requires var r := At(run, k, i); v > r.view || (v == r.view && r.status == ViewChange)
    ensures r'.view == v
    ensures r'.status == ViewChange ==> j in r'.dvcFrom && r'.dvcFrom[j] == d && |r'.dvcFrom| < cfg.Quorum()
    ensures r'.status != ViewChange ==>
              r'.status == Normal && r'.lastNormal == v && j in r'.origin.reports && |r'.origin.reports| >= cfg.Quorum()
              && exists c :: StartView(v, r'.log, c) in r'.outbox
  {
    hide IsRun, TryStartView, SentOk;
    var r := At(run, k, i);
    var r1 := if v > r.view then BeginViewChange(i, r, v) else r;
    var r2 := r1.(dvcFrom := r1.dvcFrom[j := d]);
    Sent(cfg, run, k, DoViewChange(v, j, d));
    SenderIn(cfg, run, k, i, v, j, d);
    StartsFrom(cfg, i, r2, j);
  }

  lemma SenderIn(cfg: Config, run: seq<System>, k: nat, i: nat, v: nat, j: nat, d: Report)
    requires InRun(cfg, run, k, i) && SentOk(run[k].h, DoViewChange(v, j, d))
    ensures j < cfg.n
  {
    hide IsRun, HistoryOk, RepOk;
    StateOk(cfg, run, k, i);
  }

  lemma StartsFrom(cfg: Config, i: nat, r: Replica, j: nat)
    requires j in r.dvcFrom && j < cfg.n
    ensures var r' := TryStartView(cfg, i, r);
            && r'.status == Normal && r'.view == r'.lastNormal == r.view && r'.origin.reports == r.dvcFrom
            && exists c :: StartView(r.view, r'.log, c) in r'.outbox
  {
    hide CommitUpTo, Best, MaxCommit;
    var best := Best(r.dvcFrom, cfg.n);
    var r1 := Merge(r, 0, r.dvcFrom[best.value].log);
    CommitRuns(cfg, i, r1, MaxCommit(r.dvcFrom, cfg.n));
    var r' := TryStartView(cfg, i, r);
    assert StartView(r.view, r'.log, r'.commit) in r'.outbox;
  }

  /** Who votes or reports late for a view is told that it has started. */
  lemma LateTold(cfg: Config, run: seq<System>, k: nat, i: nat, m: Message, r': Replica)
    requires Gets(cfg, run, k, i, m, r') && (m.StartViewChange? || m.DoViewChange?)
    requires var r := At(run, k, i); m.view == r.view && InCharge(cfg, i, r)
    ensures StartView(m.view, r'.log, r'.commit) in r'.outbox && r'.log == At(run, k, i).log
  {
  }

  // ---------------------------------------------------------------------------
  // Without a message

  /** A replica whose time runs out, and that does not lead its view, wants the next. */
  lemma TimeoutVotes(cfg: Config, run: seq<System>, k: nat, i: nat)
    requires InRun(cfg, run, k, i) && i < |run[k].reps| && !InCharge(cfg, i, At(run, k, i))
    ensures var r, r' := At(run, k, i), OnTimeout(cfg, i, At(run, k, i));
            r'.view == r.view + 1 && r'.status == ViewChange && StartViewChange(r.view + 1, i) in r'.outbox
  {
  }

  /** What went unanswered goes again: the primary's commit number, an entry that is due and its last round,
      a request for state, votes and reports. */
  lemma AsksAgain(cfg: Config, run: seq<System>, k: nat, i: nat, due: nat)
    requires InRun(cfg, run, k, i) && i < |run[k].reps|
    ensures var r := At(run, k, i);
            && (InCharge(cfg, i, r) ==>
                  var r' := OnIdlePrimary(cfg, i, r, due);
                  && Commit(r.view, r.commit) in r'.early
                  && (r.commit < due <= |r.log| ==> Prepare(r.view, due, r.log[due - 1], r.commit) in r'.early)
                  && (r.q.round > r.q.done ==> ConfirmView(r.view, r.q.round) in r'.early))
            && (r.status == StateTransfer ==> GetState(i, cfg.Primary(r.view), r.view, |r.log|) in OnIdleTransfer(cfg, i, r).early)
            && (r.status == ViewChange && r.catchingUp.Some? ==>
                  GetState(i, cfg.Primary(r.view), r.view, r.commit) in OnIdleViewChange(cfg, i, r).early)
            && (r.status == ViewChange && r.catchingUp.None? && !r.dvcSent ==>
                  StartViewChange(r.view, i) in OnIdleViewChange(cfg, i, r).outbox)
            && (r.status == ViewChange && r.catchingUp.None? && r.dvcSent && cfg.Primary(r.view) != i ==>
                  var r' := OnIdleViewChange(cfg, i, r);
                  StartViewChange(r.view, i) in r'.outbox && DoViewChange(r.view, i, ReportOf(r)) in r'.outbox)
  {
    hide IsRun;
    Facts(cfg, run, k, i);
  }

  /** Who is asked to confirm the view it is in does. */
  lemma ViewConfirmed(cfg: Config, run: seq<System>, k: nat, i: nat, v: nat, round: nat, r': Replica)
    requires Gets(cfg, run, k, i, ConfirmView(v, round), r') && At(run, k, i).view == v
    ensures ConfirmViewOk(v, round, i) in r'.early
  {
  }

  /** A replica that comes back from a crash has its disk's log and commit number, but where its state
      machine holds more, and has executed all it has committed.  It is in the view its disk was in, or on
      the way to it if it had not entered it, or to the next if it led it. */
  lemma ComesBack(cfg: Config, run: seq<System>, k: nat, i: nat, landed: bool)
    requires InRun(cfg, run, k, i) && i < |run[k].reps| && run[k].h.cfg == cfg && Enabled(run[k], Crash(i, landed))
    ensures var r := At(run, k, i);
            var disk, r' := (if landed then r.out.value else r.disk), Step(run[k], Crash(i, landed)).reps[i];
            && r'.disk == disk && disk.view >= r.disk.view && r'.lastNormal == disk.lastNormal && r'.commit == Max(disk.commit, |r.flushed|)
            && r.flushed <= r'.sm && |r'.sm| == r'.commit
            && (forall x {:trigger r'.log[x]} :: |r.flushed| <= x < |r'.log| ==> x < |disk.log| && r'.log[x] == disk.log[x])
            && |r'.log| == Max(|disk.log|, |r.flushed|)
            && (if disk.lastNormal < disk.view then
                  r'.view == disk.view && r'.status == ViewChange && StartViewChange(disk.view, i) in r'.outbox
                else if cfg.Primary(disk.view) == i then
                  r'.view == disk.view + 1 && r'.status == ViewChange && StartViewChange(disk.view + 1, i) in r'.outbox
                else r'.view == disk.view && r'.status == Normal)
  {
    hide IsRun, HistoryOk, RepOk, Restart;
    StateOk(cfg, run, k, i);
    var r := At(run, k, i);
    DiskParts(run[k].h, i, r, landed);
    RestartShape(cfg, i, if landed then r.out.value else r.disk, r.flushed);
  }

  lemma DiskParts(h: History, i: nat, r: Replica, landed: bool)
    requires RepOk(h, i, r) && (landed ==> r.out.Some?)
    ensures var disk := if landed then r.out.value else r.disk;
            disk.view >= r.disk.view && disk.commit <= |disk.log| && (|r.flushed| <= disk.commit ==> r.flushed <= disk.log)
  {
    hide StatusOk, LeadsOk, CatchingUpOk, AcksOk, ReportsOk, EarlyOk, BoxesOk, RecordedOk, AckedOk, OwnReportOk, WritesOk, ExecutionOk,
      AnswersOk, LeaderOk, Certain;
    var disk := if landed then r.out.value else r.disk;
    assert Holds(h, disk.lastNormal, disk.log, disk.commit) && Holds(h, r.lastNormal, r.log, r.commit);
    assert r.flushed <= r.sm <= r.log && |r.sm| <= r.commit;
    if |r.flushed| <= disk.commit {
      forall x | 0 <= x < |r.flushed|
        ensures r.flushed[x] == disk.log[x]
      {
        assert r.flushed[x] == r.log[x] == h.completed[x] == disk.log[x];
      }
    }
  }

  lemma RestartShape(cfg: Config, i: nat, disk: Image, flushed: Log)
    requires disk.commit <= |disk.log| && (|flushed| <= disk.commit ==> flushed <= disk.log)
    ensures var r' := Restart(cfg, i, disk, flushed);
            && r'.disk == disk && r'.lastNormal == disk.lastNormal && r'.commit == Max(disk.commit, |flushed|)
            && flushed <= r'.sm && |r'.sm| == r'.commit && |r'.log| == Max(|disk.log|, |flushed|)
            && (forall x {:trigger r'.log[x]} :: |flushed| <= x < |r'.log| ==> x < |disk.log| && r'.log[x] == disk.log[x])
            && (if disk.lastNormal < disk.view then
                  r'.view == disk.view && r'.status == ViewChange && StartViewChange(disk.view, i) in r'.outbox
                else if cfg.Primary(disk.view) == i then
                  r'.view == disk.view + 1 && r'.status == ViewChange && StartViewChange(disk.view + 1, i) in r'.outbox
                else r'.view == disk.view && r'.status == Normal)
  {
    hide ExecuteQueries, ApplyCommitted;
    var commit := Max(disk.commit, |flushed|);
    var log := if |flushed| > disk.commit then flushed + Drop(disk.log, |flushed|) else disk.log;
    assert flushed <= log;
    var r := New(cfg).(view := disk.view, lastNormal := disk.lastNormal, commit := commit, log := log,
                       sm := flushed, flushed := flushed, durable := |log|, disk := disk,
                       failed := commit > |log|);
    ApplyRuns(cfg, i, r, |log|);
    AppliesOn(cfg, i, r, |log|);
  }

  lemma AppliesOn(cfg: Config, i: nat, r: Replica, op: int)
    ensures r.sm <= ApplyCommitted(cfg, i, r, op).sm
  {
    hide ExecuteQueries;
    ExecuteFrame(cfg, i, Execute(r, Min(r.commit, op)));
  }
}
