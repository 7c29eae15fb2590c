/** What a quorum has acknowledged to the one that leads their view is committed at once, in every state of
    every run. */
module Counting {
  import opened Types
  import opened Quorums
  import opened Protocol
  import opened Cluster
  import opened Invariant
  import opened Steps
  import opened Running
  import opened Agreement
  import opened Answering
  import opened Continuing
  import opened Reviving
  import opened Linearizability

  ghost predicate Counts(cfg: Config, i: nat, r: Replica) { InCharge(cfg, i, r) ==> Counted(cfg, r) }

  lemma SameCounts(cfg: Config, i: nat, r: Replica, r': Replica)
    requires Counts(cfg, i, r) && r'.acked == r.acked && r'.commit >= r.commit && (InCharge(cfg, i, r') ==> InCharge(cfg, i, r))
    ensures Counts(cfg, i, r')
  {
  }

  lemma EnteredCounts(cfg: Config, i: nat, r: Replica)
    ensures Counts(cfg, i, EnterNormal(r))
  {
    hide QuorumMark;
    NoneAcked(cfg, |r.acked|);
  }

  lemma StartCounts(cfg: Config, i: nat, r: Replica)
    requires r.status == ViewChange
    ensures Counts(cfg, i, TryStartView(cfg, i, r))
  {
    hide CommitUpTo, Best, MaxCommit, Counted;
    var best := Best(r.dvcFrom, cfg.n);
    if best.Some? {
      var r1 := Merge(r, 0, r.dvcFrom[best.value].log);
      var r2 := CommitUpTo(cfg, i, r1, MaxCommit(r.dvcFrom, cfg.n));
      EnteredCounts(cfg, i, r2);
      SameCounts(cfg, i, EnterNormal(r2), TryStartView(cfg, i, r));
    }
  }

  lemma RecordCounts(cfg: Config, i: nat, r: Replica, from: nat, d: Report)
    requires r.status == ViewChange
    ensures Counts(cfg, i, RecordReport(cfg, i, r, from, d))
  {
    hide TryStartView;
    StartCounts(cfg, i, r.(dvcFrom := r.dvcFrom[from := d]));
  }

  lemma ReportCounts(cfg: Config, i: nat, r: Replica)
    requires r.status == ViewChange
    ensures Counts(cfg, i, SendReport(cfg, i, r))
  {
    hide RecordReport;
    RecordCounts(cfg, i, r, i, ReportOf(r));
  }

  lemma InstallCounts(cfg: Config, i: nat, r: Replica, start: nat, entries: Log, c: nat)
    requires r.status == ViewChange || (r.status == StateTransfer && cfg.Primary(r.view) != i)
    ensures Counts(cfg, i, InstallState(cfg, i, r, start, entries, c))
  {
    hide CommitUpTo, TryStartView, Counted;
    CommitRuns(cfg, i, Merge(r, start, entries), c);
    if r.status == ViewChange {
      var r1 := Merge(r, start, entries).(catchingUp := None);
      StartCounts(cfg, i, r1);
      EnteredCounts(cfg, i, CommitUpTo(cfg, i, r1, c));
      SameCounts(cfg, i, EnterNormal(CommitUpTo(cfg, i, r1, c)), SendPrepareOk(i, EnterNormal(CommitUpTo(cfg, i, r1, c))));
    }
  }

  lemma PrepareCounts(cfg: Config, i: nat, r: Replica, v: nat, op: nat, e: LogEntry, c: nat)
    requires Counts(cfg, i, r)
    ensures Counts(cfg, i, OnPrepare(cfg, i, r, v, op, e, c)) && Counts(cfg, i, OnCommit(cfg, i, r, v, c))
  {
    hide CommitUpTo, Counted;
    var r1 := if op == |r.log| + 1 then Append(r, e) else r;
    CommitRuns(cfg, i, r1, Min(c, |r1.log|));
    CommitRuns(cfg, i, r, c);
  }

  lemma VoteCounts(cfg: Config, i: nat, r: Replica, v: nat, from: nat)
    requires Counts(cfg, i, r)
    ensures Counts(cfg, i, OnStartViewChange(cfg, i, r, v, from))
  {
    hide SendReport, Counted;
    var r1 := if v > r.view then BeginViewChange(i, r, v) else r;
    var r2 := r1.(svcFrom := r1.svcFrom + {from}, dvcSent := true);
    if r2.status == ViewChange {
      ReportCounts(cfg, i, r2);
    }
    var r' := OnStartViewChange(cfg, i, r, v, from);
    if v < r.view || (v == r.view && r.status != ViewChange) {
      SameCounts(cfg, i, r, r');
    }
  }

  lemma DoViewChangeCounts(cfg: Config, i: nat, r: Replica, v: nat, from: nat, d: Report)
    requires Counts(cfg, i, r) && (r.status == StateTransfer ==> cfg.Primary(r.view) != i)
    ensures Counts(cfg, i, OnDoViewChange(cfg, i, r, v, from, d))
  {
    hide RecordReport, Counted;
    var r1 := if v > r.view then BeginViewChange(i, r, v) else r;
    if r1.status == ViewChange {
      RecordCounts(cfg, i, r1, from, d);
    }
    if v < r.view || cfg.Primary(v) != i || (v == r.view && r.status == Normal) {
      SameCounts(cfg, i, r, OnDoViewChange(cfg, i, r, v, from, d));
    }
  }

  lemma StartViewCounts(cfg: Config, i: nat, r: Replica, v: nat, log: Log, c: nat)
    requires Counts(cfg, i, r)
    ensures Counts(cfg, i, OnStartView(cfg, i, r, v, log, c))
  {
    hide CommitUpTo, Counted;
    if !(v < r.view || (v == r.view && r.status != ViewChange)) {
      var r1 := EnterNormal(CommitUpTo(cfg, i, Merge(r, 0, log).(view := v), c));
      EnteredCounts(cfg, i, CommitUpTo(cfg, i, Merge(r, 0, log).(view := v), c));
      SameCounts(cfg, i, r1, SendPrepareOk(i, r1));
    }
  }

  lemma ConfirmCounts(cfg: Config, i: nat, r: Replica, v: nat, round: nat, from: nat)
    requires Counts(cfg, i, r)
    ensures Counts(cfg, i, OnConfirmViewOk(cfg, i, r, v, round, from))
  {
    hide ExecuteQueries, QuorumMark, Counted;
    var r' := OnConfirmViewOk(cfg, i, r, v, round, from);
    if !(v != r.view || cfg.Primary(v) != i || r.status != Normal || from >= |r.q.confirmed|
         || round > r.q.round || round <= r.q.confirmed[from]) {
      var r1 := r.(q := r.q.(confirmed := r.q.confirmed[from := round]));
      var r2 := r1.(q := r1.q.(done := QuorumMark(cfg, r1.q.confirmed, |r1.q.confirmed|)));
      ExecuteFrame(cfg, i, r2);
      ExecuteFrame(cfg, i, StartRound(i, r2));
    }
    SameCounts(cfg, i, r, r');
  }

  lemma AckCounts(cfg: Config, i: nat, r: Replica, v: nat, op: nat, from: nat)
    requires Counts(cfg, i, r)
    ensures Counts(cfg, i, OnPrepareOk(cfg, i, r, v, op, from))
  {
    hide RegisterAck, Counted;
    AckRuns(cfg, i, r, from, op);
  }

  lemma IdleCounts(cfg: Config, i: nat, r: Replica)
    requires Counts(cfg, i, r)
    ensures Counts(cfg, i, OnIdleViewChange(cfg, i, r))
  {
    hide SendReport, Counted;
    if r.status == ViewChange {
      var r1 := if r.catchingUp.Some? then SendEarly(r, GetState(i, r.catchingUp.value, r.view, r.commit)) else r;
      ReportCounts(cfg, i, if r.catchingUp.None? || r.dvcSent then Send(r1, StartViewChange(r.view, i)) else r1);
    }
  }

  lemma MessageCounts(cfg: Config, i: nat, r: Replica, m: Message)
    requires Counts(cfg, i, r) && (r.status == StateTransfer ==> cfg.Primary(r.view) != i)
    ensures Counts(cfg, i, OnMessage(cfg, i, r, m))
  {
    hide Counted, InstallState, OnPrepare, OnPrepareOk, OnCommit, OnStartViewChange, OnDoViewChange, OnStartView, OnConfirmViewOk;
    match m
    case Prepare(v, op, e, c) => PrepareCounts(cfg, i, r, v, op, e, c);
    case PrepareOk(v, op, j) => AckCounts(cfg, i, r, v, op, j);
    case Commit(v, c) => PrepareCounts(cfg, i, r, v, 0, LogEntry.Register(0), c);
    case GetState(j, _, v, op) => SameCounts(cfg, i, r, OnMessage(cfg, i, r, m));
    case NewState(_, _, v, start, es, c) =>
      if OnMessage(cfg, i, r, m) == r {
      } else {
        InstallCounts(cfg, i, r, start, es, c);
      }
    case StartViewChange(v, j) => VoteCounts(cfg, i, r, v, j);
    case DoViewChange(v, j, d) => DoViewChangeCounts(cfg, i, r, v, j, d);
    case StartView(v, log, c) => StartViewCounts(cfg, i, r, v, log, c);
    case ConfirmView(v, round) => SameCounts(cfg, i, r, OnMessage(cfg, i, r, m));
    case ConfirmViewOk(v, round, j) => ConfirmCounts(cfg, i, r, v, round, j);
  }

  lemma InputCounts(cfg: Config, i: nat, r: Replica, input: Input, h: History)
    requires Counts(cfg, i, r) && (r.status == StateTransfer ==> cfg.Primary(r.view) != i)
    ensures Counts(cfg, i, OnInput(cfg, i, r, input, h))
  {
    hide Counted, OnMessage, OnIdleViewChange;
    var r' := OnInput(cfg, i, r, input, h);
    match input
    case ClientEntry(e) => SameCounts(cfg, i, r, r');
    case Query(id) => SameCounts(cfg, i, r, r');
    case Receive(m) => MessageCounts(cfg, i, r, m);
    case Timeout => SameCounts(cfg, i, r, r');
    case IdlePrimary(due) => SameCounts(cfg, i, r, r');
    case IdleTransfer => SameCounts(cfg, i, r, r');
    case IdleViewChange => IdleCounts(cfg, i, r);
  }

  lemma LandCounts(cfg: Config, i: nat, r: Replica, skip: bool)
    requires Counts(cfg, i, r) && r.out.Some?
    ensures Counts(cfg, i, Persisted(cfg, i, r, skip))
  {
    hide RegisterAck, ApplyCommitted, Counted;
    var out := r.out.value;
    var r1 := r.(out := None, disk := if skip then r.disk else out, durable := |out.log|, waiting := {});
    var acks := r1.status == Normal && cfg.Primary(r1.view) == i && out.lastNormal == r1.view;
    var r2 := if acks then RegisterAck(cfg, i, r1, i, DurableOp(r1)) else r1;
    SameCounts(cfg, i, r, r1);
    AckRuns(cfg, i, r1, i, DurableOp(r1));
    ApplyRuns(cfg, i, r2, DurableOp(r1));
    SameCounts(cfg, i, r2, ApplyCommitted(cfg, i, r2, DurableOp(r1)));
  }

  lemma StepCounts(s: System, e: Event)
    requires Inv(s) && Enabled(s, e) && Counts(s.h.cfg, e.i, s.reps[e.i])
    ensures Counts(s.h.cfg, e.i, Step(s, e).reps[e.i])
  {
    hide Inv, HistoryOk, Counted, OnInput, Restored, Persisted, Restart, Acted, InCharge;
    var cfg, i, r := s.h.cfg, e.i, s.reps[e.i];
    RepPart(s, i);
    NotPrimary(s.h, i, r);
    hide RepOk;
    match e
    case Act(_, input) => InputCounts(cfg, i, r, input, s.h);
    case Drain(_, _) => SameCharge(cfg, i, r, Step(s, e).reps[i]);
    case Take(_) => SameCharge(cfg, i, r, TakeWrite(r));
    case Land(_, skip) => LandCounts(cfg, i, r, skip);
    case Flush(_) => SameCharge(cfg, i, r, Step(s, e).reps[i]);
    case Restore(_, m, k) => RestoredCounts(cfg, i, r, m, k);
    case Crash(_, landed) => CrashEnds(cfg, i, if landed then r.out.value else r.disk, r.flushed);
  }

  lemma SameCharge(cfg: Config, i: nat, r: Replica, r': Replica)
    requires Counts(cfg, i, r) && r'.acked == r.acked && r'.commit == r.commit && r'.view == r.view && r'.status == r.status
    ensures Counts(cfg, i, r')
  {
    hide Counted;
    SameCounts(cfg, i, r, r');
  }

  lemma NotPrimary(h: History, i: nat, r: Replica)
    requires RepOk(h, i, r)
    ensures r.status == StateTransfer ==> h.cfg.Primary(r.view) != i
  {
  }

  lemma RestoredCounts(cfg: Config, i: nat, r: Replica, m: Message, k: nat)
    requires Fetches(r, m, k) && (r.status == StateTransfer ==> cfg.Primary(r.view) != i)
    ensures Counts(cfg, i, Restored(cfg, i, r, m, k))
  {
    hide InstallState, Counted;
    InstallCounts(cfg, i, Fetched(r, m, k), m.start, m.entries, m.commit);
  }

  /** In every state of every run the one that leads a view has committed every op that a quorum, as far as
      it has heard, acknowledged. */
  lemma {:induction false} QuorumCommits(cfg: Config, run: seq<System>, k: nat, i: nat)
    requires InRun(cfg, run, k, i)
    ensures i < |run[k].reps| && Counts(cfg, i, At(run, k, i))
    ensures InCharge(cfg, i, At(run, k, i)) ==>
              forall op: nat {:trigger Reaching(At(run, k, i).acked, op)} ::
                |Reaching(At(run, k, i).acked, op)| >= cfg.Quorum() ==> op <= At(run, k, i).commit
  {
    hide HistoryOk, RepOk, Step, Inv, InCharge;
    StateOk(cfg, run, k, i);
    if k == 0 {
      FirstCounts(cfg, i);
    } else {
      QuorumCommits(cfg, run, k - 1, i);
      assert IsStep(run[k - 1], run[k - 1 + 1]);
      var e :| Enabled(run[k - 1], e) && run[k] == Step(run[k - 1], e);
      StepReps(run[k - 1], e);
      if e.i == i {
        RunOk(cfg, run, k - 1, k - 1);
        StepCounts(run[k - 1], e);
      }
    }
    if InCharge(cfg, i, At(run, k, i)) {
      MarkedCommitted(cfg, At(run, k, i));
    }
  }

  lemma FirstCounts(cfg: Config, i: nat)
    requires i < |Initial(cfg).reps|
    ensures Counts(cfg, i, Initial(cfg).reps[i])
  {
    NoneAcked(cfg, cfg.n);
    assert Initial(cfg).reps[i] == New(cfg);
  }

  lemma MarkedCommitted(cfg: Config, r: Replica)
    requires Counted(cfg, r)
    ensures forall op: nat {:trigger Reaching(r.acked, op)} :: |Reaching(r.acked, op)| >= cfg.Quorum() ==> op <= r.commit
  {
    hide QuorumMark;
    forall op: nat | |Reaching(r.acked, op)| >= cfg.Quorum()
      ensures op <= r.commit
    {
      if op > QuorumMark(cfg, r.acked, |r.acked|) {
        QuorumMarkIsHighest(cfg, r.acked, op);
      }
    }
  }
}
