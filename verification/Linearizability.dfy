/** Queries are linearizable: each reads a state between what had completed as it arrived and what
    had completed as it was answered. */
module Linearizability {
  import opened Types
  import opened Quorums
  import opened Protocol
  import opened Cluster
  import opened Invariant
  import opened Steps
  import opened Handlers
  import opened Reads
  import opened Landing
  import opened Running
  import opened Agreement

  // ---------------------------------------------------------------------------
  // Where the floors of queries come from

  /** The queries that wait, or were answered, each with what had completed when it arrived. */
  function Floors(r: Replica): set<(nat, Log)> {
    (set x | x in r.q.queries :: (x.id, x.floor)) + (set x | x in r.answers :: (x.id, x.floor))
  }

  lemma SameFloors(r: Replica, r': Replica)
    requires r'.q.queries == r.q.queries && r'.answers == r.answers
    ensures Floors(r') == Floors(r)
  {
  }

  lemma NoQueriesFloors(r: Replica, r': Replica)
    requires r'.q.queries == [] && r'.answers == r.answers
    ensures Floors(r') <= Floors(r)
  {
  }

  lemma AnswerFloors(r: Replica)
    requires r.q.queries != []
    ensures Floors(r.(q := r.q.(queries := r.q.queries[1..]), answers := r.answers + [Answer(r.q.queries[0].id, r.q.queries[0].floor, r.sm)]))
         <= Floors(r)
  {
    assert r.q.queries[0] in r.q.queries;
  }

  lemma {:induction false} ExecuteFloors(cfg: Config, i: nat, r: Replica)
    ensures Floors(ExecuteQueries(cfg, i, r)) <= Floors(r)
    decreases |r.q.queries|
  {
    hide Floors;
    if cfg.Primary(r.view) == i && r.status == Normal && r.q.queries != []
       && r.q.queries[0].round <= r.q.done && r.q.queries[0].op <= |r.sm| {
      AnswerFloors(r);
      ExecuteFloors(cfg, i, r.(q := r.q.(queries := r.q.queries[1..]),
                               answers := r.answers + [Answer(r.q.queries[0].id, r.q.queries[0].floor, r.sm)]));
    }
  }

  lemma ApplyFloors(cfg: Config, i: nat, r: Replica, op: int)
    ensures Floors(ApplyCommitted(cfg, i, r, op)) <= Floors(r)
  {
    hide Floors, ExecuteQueries;
    SameFloors(r, Execute(r, Min(r.commit, op)));
    ExecuteFloors(cfg, i, Execute(r, Min(r.commit, op)));
  }

  lemma CommitFloors(cfg: Config, i: nat, r: Replica, c: nat)
    ensures Floors(CommitUpTo(cfg, i, r, c)) <= Floors(r)
  {
    hide Floors, ApplyCommitted;
    SameFloors(r, r.(commit := c));
    ApplyFloors(cfg, i, r.(commit := c), DurableOp(r));
  }

  lemma AckFloors(cfg: Config, i: nat, r: Replica, from: nat, op: int)
    ensures Floors(RegisterAck(cfg, i, r, from, op)) <= Floors(r)
  {
    hide Floors, CommitUpTo, QuorumMark;
    var op' := Min(op, |r.log|);
    if from < |r.acked| && op' > r.acked[from] {
      var r1 := r.(acked := r.acked[from := op']);
      SameFloors(r, r1);
      CommitFloors(cfg, i, r1, QuorumMark(cfg, r1.acked, |r1.acked|));
    }
  }

  lemma MergeFloors(cfg: Config, i: nat, r: Replica, start: nat, entries: Log, c: nat)
    ensures forall v: nat :: Floors(EnterNormal(CommitUpTo(cfg, i, Merge(r, start, entries).(view := v), c))) <= Floors(r)
    ensures Floors(CommitUpTo(cfg, i, Merge(r, start, entries), c)) <= Floors(r)
  {
    hide Floors, CommitUpTo;
    forall v: nat
      ensures Floors(EnterNormal(CommitUpTo(cfg, i, Merge(r, start, entries).(view := v), c))) <= Floors(r)
    {
      var r1 := Merge(r, start, entries).(view := v);
      SameFloors(r, r1);
      CommitFloors(cfg, i, r1, c);
      NoQueriesFloors(CommitUpTo(cfg, i, r1, c), EnterNormal(CommitUpTo(cfg, i, r1, c)));
    }
    SameFloors(r, Merge(r, start, entries));
    CommitFloors(cfg, i, Merge(r, start, entries), c);
  }

  lemma StartFloors(cfg: Config, i: nat, r: Replica)
    ensures Floors(TryStartView(cfg, i, r)) <= Floors(r)
  {
    hide Floors, CommitUpTo, Best, MaxCommit;
    var best := Best(r.dvcFrom, cfg.n);
    if best.Some? {
      var r1 := Merge(r, 0, r.dvcFrom[best.value].log);
      SameFloors(r, r1);
      var r2 := CommitUpTo(cfg, i, r1, MaxCommit(r.dvcFrom, cfg.n));
      CommitFloors(cfg, i, r1, MaxCommit(r.dvcFrom, cfg.n));
      NoQueriesFloors(r2, TryStartView(cfg, i, r));
    }
  }

  lemma RecordFloors(cfg: Config, i: nat, r: Replica, from: nat, d: Report)
    ensures Floors(RecordReport(cfg, i, r, from, d)) <= Floors(r)
  {
    hide Floors, TryStartView;
    SameFloors(r, r.(dvcFrom := r.dvcFrom[from := d]));
    StartFloors(cfg, i, r.(dvcFrom := r.dvcFrom[from := d]));
  }

  lemma ReportFloors(cfg: Config, i: nat, r: Replica)
    ensures Floors(SendReport(cfg, i, r)) <= Floors(r)
  {
    hide Floors, RecordReport;
    RecordFloors(cfg, i, r, i, ReportOf(r));
    if cfg.Primary(r.view) != i {
      SameFloors(r, SendReport(cfg, i, r));
    }
  }

  // ---------------------------------------------------------------------------
  // Handlers

  lemma PrepareFloors(cfg: Config, i: nat, r: Replica, v: nat, op: nat, e: LogEntry, c: nat)
    ensures Floors(OnPrepare(cfg, i, r, v, op, e, c)) <= Floors(r)
  {
    hide Floors, CommitUpTo;
    var r' := OnPrepare(cfg, i, r, v, op, e, c);
    if !Accepts(cfg, i, r, v) {
      DeclineFloors(cfg, i, r, v);
    } else if op > |r.log| + 1 {
      SameFloors(r, r');
    } else {
      var r1 := if op == |r.log| + 1 then Append(r, e) else r;
      SameFloors(r, r1);
      CommitFloors(cfg, i, r1, Min(c, |r1.log|));
      SameFloors(CommitUpTo(cfg, i, r1, Min(c, |r1.log|)), r');
    }
  }

  lemma DeclineFloors(cfg: Config, i: nat, r: Replica, v: nat)
    ensures Floors(Decline(cfg, i, r, v)) <= Floors(r)
  {
  }

  lemma CommitMessageFloors(cfg: Config, i: nat, r: Replica, v: nat, c: nat)
    ensures Floors(OnCommit(cfg, i, r, v, c)) <= Floors(r)
  {
    hide Floors, CommitUpTo;
    CommitFloors(cfg, i, r, c);
    if !Accepts(cfg, i, r, v) {
      DeclineFloors(cfg, i, r, v);
    } else if c > |r.log| {
      SameFloors(r, OnCommit(cfg, i, r, v, c));
    }
  }

  lemma NewStateFloors(cfg: Config, i: nat, r: Replica, v: nat, start: nat, entries: Log, c: nat)
    ensures Floors(OnNewState(cfg, i, r, v, start, entries, c)) <= Floors(r)
  {
    hide Floors, InstallState;
    InstallFloors(cfg, i, r, start, entries, c);
  }

  lemma InstallFloors(cfg: Config, i: nat, r: Replica, start: nat, entries: Log, c: nat)
    ensures Floors(InstallState(cfg, i, r, start, entries, c)) <= Floors(r)
  {
    hide Floors, CommitUpTo, TryStartView, Merge, EnterNormal;
    if r.status == StateTransfer {
      MergeFloors(cfg, i, r, start, entries, c);
      SameFloors(CommitUpTo(cfg, i, Merge(r, start, entries), c), InstallState(cfg, i, r, start, entries, c));
    } else {
      CaughtUpFloors(cfg, i, r, start, entries, c);
    }
  }

  lemma CaughtUpFloors(cfg: Config, i: nat, r: Replica, start: nat, entries: Log, c: nat)
    ensures var r1 := Merge(r, start, entries).(catchingUp := None);
            && Floors(TryStartView(cfg, i, r1)) <= Floors(r)
            && Floors(SendPrepareOk(i, EnterNormal(CommitUpTo(cfg, i, r1, c)))) <= Floors(r)
  {
    hide Floors, CommitUpTo, TryStartView, Merge, EnterNormal;
    var r1 := Merge(r, start, entries).(catchingUp := None);
    SameFloors(r, r1) by { MergedQueries(r, start, entries); }
    StartFloors(cfg, i, r1);
    CommitFloors(cfg, i, r1, c);
    var r2 := CommitUpTo(cfg, i, r1, c);
    EnteredFloors(r2);
    SameFloors(EnterNormal(r2), SendPrepareOk(i, EnterNormal(r2)));
  }

  lemma MergedQueries(r: Replica, start: nat, entries: Log)
    ensures Merge(r, start, entries).q == r.q && Merge(r, start, entries).answers == r.answers
  {
  }

  lemma EnteredFloors(r: Replica)
    ensures Floors(EnterNormal(r)) <= Floors(r)
  {
  }

  lemma VoteFloors(cfg: Config, i: nat, r: Replica, v: nat, from: nat)
    ensures Floors(OnStartViewChange(cfg, i, r, v, from)) <= Floors(r)
  {
    hide Floors, SendReport;
    var r' := OnStartViewChange(cfg, i, r, v, from);
    if v < r.view || (v == r.view && r.status != ViewChange) {
      SameFloors(r, r');
    } else {
      var r1 := if v > r.view then BeginViewChange(i, r, v) else r;
      if v > r.view {
        NoQueriesFloors(r, r1);
      }
      var r2 := r1.(svcFrom := r1.svcFrom + {from});
      SameFloors(r1, r2);
      SameFloors(r2, r2.(dvcSent := true));
      ReportFloors(cfg, i, r2.(dvcSent := true));
    }
  }

  lemma DoViewChangeFloors(cfg: Config, i: nat, r: Replica, v: nat, from: nat, d: Report)
    ensures Floors(OnDoViewChange(cfg, i, r, v, from, d)) <= Floors(r)
  {
    hide Floors, RecordReport;
    var r' := OnDoViewChange(cfg, i, r, v, from, d);
    if v < r.view || cfg.Primary(v) != i || (v == r.view && r.status == Normal) {
      SameFloors(r, r');
    } else {
      var r1 := if v > r.view then BeginViewChange(i, r, v) else r;
      if v > r.view {
        NoQueriesFloors(r, r1);
      }
      RecordFloors(cfg, i, r1, from, d);
    }
  }

  lemma StartViewFloors(cfg: Config, i: nat, r: Replica, v: nat, log: Log, c: nat)
    ensures Floors(OnStartView(cfg, i, r, v, log, c)) <= Floors(r)
  {
    hide Floors, CommitUpTo;
    if !(v < r.view || (v == r.view && r.status != ViewChange)) {
      MergeFloors(cfg, i, r, 0, log, c);
      var r1 := EnterNormal(CommitUpTo(cfg, i, Merge(r, 0, log).(view := v), c));
      SameFloors(r1, SendPrepareOk(i, r1));
    }
  }

  lemma ConfirmFloors(cfg: Config, i: nat, r: Replica, v: nat, round: nat, from: nat)
    ensures Floors(OnConfirmViewOk(cfg, i, r, v, round, from)) <= Floors(r)
  {
    hide Floors, ExecuteQueries, QuorumMark;
    if !(v != r.view || cfg.Primary(v) != i || r.status != Normal || from >= |r.q.confirmed|
         || round > r.q.round || round <= r.q.confirmed[from]) {
      var r1 := r.(q := r.q.(confirmed := r.q.confirmed[from := round]));
      var r2 := r1.(q := r1.q.(done := QuorumMark(cfg, r1.q.confirmed, |r1.q.confirmed|)));
      SameFloors(r, r1);
      SameFloors(r, r2);
      SameFloors(r, StartRound(i, r2));
      ExecuteFloors(cfg, i, r2);
      ExecuteFloors(cfg, i, StartRound(i, r2));
    }
  }

  lemma IdleFloors(cfg: Config, i: nat, r: Replica)
    ensures Floors(OnIdleViewChange(cfg, i, r)) <= Floors(r)
  {
    hide Floors, SendReport;
    if r.status == ViewChange {
      var r1 := if r.catchingUp.Some? then SendEarly(r, GetState(i, r.catchingUp.value, r.view, r.commit)) else r;
      var r2 := if r.catchingUp.None? || r.dvcSent then Send(r1, StartViewChange(r.view, i)) else r1;
      SameFloors(r, r2);
      ReportFloors(cfg, i, r2);
    }
  }

  lemma QueryFloors(cfg: Config, i: nat, r: Replica, id: nat, floor: Log, moved: set<nat>)
    ensures Floors(OnQuery(cfg, i, r, id, floor, moved)) <= Floors(r) + {(id, floor)}
  {
    var r' := OnQuery(cfg, i, r, id, floor, moved);
    assert r'.answers == r.answers;
    assert r'.q.queries == r.q.queries || (r'.q.queries[..|r.q.queries|] == r.q.queries && |r'.q.queries| == |r.q.queries| + 1
                                           && r'.q.queries[|r.q.queries|].floor == floor && r'.q.queries[|r.q.queries|].id == id);
  }

  lemma MessageFloors(cfg: Config, i: nat, r: Replica, m: Message)
    ensures Floors(OnMessage(cfg, i, r, m)) <= Floors(r)
  {
    hide Floors, OnPrepare, OnPrepareOk, OnCommit, OnNewState, OnStartViewChange, OnDoViewChange, OnStartView, OnConfirmViewOk;
    match m
    case Prepare(v, op, e, c) => PrepareFloors(cfg, i, r, v, op, e, c);
    case PrepareOk(v, op, j) => PrepareOkFloors(cfg, i, r, v, op, j);
    case Commit(v, c) => CommitMessageFloors(cfg, i, r, v, c);
    case GetState(j, _, v, op) => SameFloors(r, OnGetState(i, r, j, v, op));
    case NewState(_, _, v, s, es, c) => NewStateFloors(cfg, i, r, v, s, es, c);
    case StartViewChange(v, j) => VoteFloors(cfg, i, r, v, j);
    case DoViewChange(v, j, d) => DoViewChangeFloors(cfg, i, r, v, j, d);
    case StartView(v, log, c) => StartViewFloors(cfg, i, r, v, log, c);
    case ConfirmView(v, round) => SameFloors(r, OnConfirmView(cfg, i, r, v, round));
    case ConfirmViewOk(v, round, j) => ConfirmFloors(cfg, i, r, v, round, j);
  }

  lemma PrepareOkFloors(cfg: Config, i: nat, r: Replica, v: nat, op: nat, from: nat)
    ensures Floors(OnPrepareOk(cfg, i, r, v, op, from)) <= Floors(r)
  {
    hide Floors, RegisterAck;
    AckFloors(cfg, i, r, from, op);
  }

  lemma InputFloors(cfg: Config, i: nat, r: Replica, input: Input, h: History)
    ensures Floors(OnInput(cfg, i, r, input, h)) <= Floors(r) + (if input.Query? then {(input.id, h.completed)} else {})
  {
    hide Floors, OnMessage, OnIdleViewChange, OnQuery;
    match input
    case ClientEntry(e) => SameFloors(r, OnRequest(cfg, i, r, e));
    case Query(id) => QueryFloors(cfg, i, r, id, h.completed, Moved(h, r.view));
    case Receive(m) => MessageFloors(cfg, i, r, m);
    case Timeout => TimeoutFloors(cfg, i, r);
    case IdlePrimary(due) => SameFloors(r, OnIdlePrimary(cfg, i, r, due));
    case IdleTransfer => SameFloors(r, OnIdleTransfer(cfg, i, r));
    case IdleViewChange => IdleFloors(cfg, i, r);
  }

  lemma TimeoutFloors(cfg: Config, i: nat, r: Replica)
    ensures Floors(OnTimeout(cfg, i, r)) <= Floors(r)
  {
  }

  lemma PersistedFloors(cfg: Config, i: nat, r: Replica, skip: bool)
    requires r.out.Some?
    ensures Floors(Persisted(cfg, i, r, skip)) <= Floors(r)
  {
    hide Floors, RegisterAck, ApplyCommitted;
    var r1 := LandedReplica(r, LandedDisk(r, skip));
    SameFloors(r, r1);
    AckFloors(cfg, i, r1, i, DurableOp(r1));
    ApplyFloors(cfg, i, r1, DurableOp(r1));
    ApplyFloors(cfg, i, RegisterAck(cfg, i, r1, i, DurableOp(r1)), DurableOp(r1));
  }

  lemma RestartFloors(cfg: Config, i: nat, disk: Image, flushed: Log)
    ensures Floors(Restart(cfg, i, disk, flushed)) == {}
  {
    hide ExecuteQueries;
    var commit := Max(disk.commit, |flushed|);
    var log := if |flushed| > disk.commit then flushed + Drop(disk.log, |flushed|) else disk.log;
    var r := New(cfg).(view := disk.view, lastNormal := disk.lastNormal, commit := commit, log := log,
                       sm := flushed, flushed := flushed, durable := |log|, disk := disk,
                       failed := commit > |log|);
    ApplyFloors(cfg, i, r, |log|);
    var r1 := ApplyCommitted(cfg, i, r, |log|);
    hide ApplyCommitted;
    assert Floors(r) == {} && Floors(r1) == {};
    if disk.lastNormal < disk.view {
      NoQueriesFloors(r1, BeginViewChange(i, r1, disk.view));
    } else if cfg.Primary(disk.view) == i {
      NoQueriesFloors(r1, BeginViewChange(i, r1, disk.view + 1));
    }
  }

  lemma RestoredFloors(cfg: Config, i: nat, r: Replica, m: Message, k: nat)
    requires Fetches(r, m, k)
    ensures Floors(Restored(cfg, i, r, m, k)) <= Floors(r)
  {
    hide Floors, InstallState;
    SameFloors(r, Fetched(r, m, k));
    InstallFloors(cfg, i, Fetched(r, m, k), m.start, m.entries, m.commit);
  }

  /** A step of a replica brings in no floor but what has completed as a query arrives. */
  lemma StepFloors(s: System, e: Event, f: (nat, Log))
    requires Enabled(s, e) && f in Floors(Step(s, e).reps[e.i])
    ensures f in Floors(s.reps[e.i]) || (f.1 == s.h.completed && e.Act? && e.input == Query(f.0))
  {
    hide Floors, OnInput, Restored, Persisted, Restart, Acted;
    var i, r := e.i, s.reps[e.i];
    match e
    case Act(_, input) => InputFloors(s.h.cfg, i, r, input, s.h);
    case Drain(_, _) => SameFloors(r, Step(s, e).reps[i]);
    case Take(_) => SameFloors(r, TakeWrite(r));
    case Land(_, skip) => PersistedFloors(s.h.cfg, i, r, skip);
    case Flush(_) => SameFloors(r, Step(s, e).reps[i]);
    case Restore(_, m, k) => RestoredFloors(s.h.cfg, i, r, m, k);
    case Crash(_, landed) =>
      RestartFloors(s.h.cfg, i, if landed then r.out.value else r.disk, r.flushed);
  }

  // ---------------------------------------------------------------------------
  // Linearizability

  /** Query `id` arrives at replica `i` in state `k` of the run. */
  ghost predicate Asked(run: seq<System>, k: nat, i: nat, id: nat) {
    k + 1 < |run| && Enabled(run[k], Act(i, Query(id))) && run[k + 1] == Step(run[k], Act(i, Query(id)))
  }

  lemma {:induction false} FloorArrived(cfg: Config, run: seq<System>, k: nat, i: nat, f: (nat, Log)) returns (a: nat)
    requires InRun(cfg, run, k, i) && i < |run[k].reps| && f in Floors(At(run, k, i))
    ensures a < k && Asked(run, a, i, f.0) && run[a].h.completed == f.1
  {
    hide HistoryOk, RepOk, Step;
    if k == 0 {
      InitialFloors(cfg, i);
    } else {
      StateOk(cfg, run, k - 1, i);
      assert IsStep(run[k - 1], run[k - 1 + 1]);
      var e :| Enabled(run[k - 1], e) && run[k] == Step(run[k - 1], e);
      StepReps(run[k - 1], e);
      if e.i == i {
        StepFloors(run[k - 1], e, f);
      }
      if f in Floors(At(run, k - 1, i)) {
        a := FloorArrived(cfg, run, k - 1, i, f);
      } else {
        a := k - 1;
      }
    }
  }

  lemma InitialFloors(cfg: Config, i: nat)
    requires i < |Initial(cfg).reps|
    ensures Floors(Initial(cfg).reps[i]) == {}
  {
    assert Initial(cfg).reps[i] == New(cfg);
  }

  lemma StepReps(s: System, e: Event)
    requires Enabled(s, e)
    ensures |Step(s, e).reps| == |s.reps| && forall j :: 0 <= j < |s.reps| && j != e.i ==> Step(s, e).reps[j] == s.reps[j]
  {
  }

  /** Linearizability: the state an answered query read starts with everything that had completed in
      any view when that query arrived, and had itself completed by the time of the answer. */
  lemma Linearizable(cfg: Config, run: seq<System>, k: nat, i: nat, x: Answer) returns (a: nat)
    requires InRun(cfg, run, k, i) && i < |run[k].reps| && x in At(run, k, i).answers
    ensures a < k && Asked(run, a, i, x.id) && run[a].h.completed == x.floor
    ensures x.floor <= x.state <= run[k].h.completed
  {
    assert (x.id, x.floor) in Floors(At(run, k, i));
    a := FloorArrived(cfg, run, k, i, (x.id, x.floor));
    StateOk(cfg, run, k, i);
    hide HistoryOk, RepOk, IsRun, Asked;
    AnswersPart(run[k].h, i, At(run, k, i));
    var n :| 0 <= n < |At(run, k, i).answers| && At(run, k, i).answers[n] == x;
  }

  lemma AnswersPart(h: History, i: nat, r: Replica)
    requires RepOk(h, i, r)
    ensures AnswersOk(h.completed, r.answers)
  {
  }

  /** A deposed primary answers nothing: if a quorum had left its view when a query arrived, no quorum
      ever confirms the query's round. */
  lemma DeposedNeverAnswers(cfg: Config, run: seq<System>, k: nat, i: nat, x: WaitingQuery)
    requires InRun(cfg, run, k, i) && i < |run[k].reps|
    requires var r := At(run, k, i); r.status == Normal && cfg.Primary(r.view) == i && x in r.q.queries
    requires cfg.IsQuorum(x.moved)
    ensures x.round > At(run, k, i).q.done
  {
    StateOk(cfg, run, k, i);
    var h, r := run[k].h, At(run, k, i);
    LeaderParts(h, i, r);
    DiskBehind(h, i, r);
    hide RepOk, HistoryOk;
    assert QueryOk(h, r.view, x);
    if x.round <= r.q.done {
      var j := QuorumsMeet(cfg, Reaching(r.q.confirmed, r.q.done), x.moved);
    }
  }
}
