/** What replicas that are together in a view do for a client: an entry is prepared, acknowledged,
    committed and executed, in the normal course, without a view change or a state transfer. */
module Serving {
  import opened Types
  import opened Quorums
  import opened Protocol
  import opened Cluster
  import opened Invariant
  import opened Entering
  import opened Safety
  import opened Steps
  import opened Running
  import opened Runs
  import opened Answering
  import opened Continuing
  import opened Reviving
  import opened Reads

  // ---------------------------------------------------------------------------
  // The primary prepares

  /** Where the calm holds, it is in the members' view. */
  ghost predicate CalmIn(calm: Option<nat>, w: nat) { calm.Some? ==> calm.value == w }

  lemma MemberOf(cfg: Config, s: System, w: nat, p: nat, q: set<nat>, j: nat)
    requires Together(cfg, s, w, p, q) && j in q
    ensures |s.reps| == cfg.n && j < cfg.n && Member(s.reps[j], w, |s.reps[p].log|)
  {
  }

  /** A client's entry is appended, and its `Prepare` leaves. */
  lemma Prepares(cfg: Config, run: seq<System>, calm: Option<nat>, s: System, w: nat, p: nat, q: set<nat>, e: LogEntry) returns (s': System)
    requires cfg.Sound() && Goes(cfg, run, calm, s) && Together(cfg, s, w, p, q)
    ensures Goes(cfg, run, calm, s') && Only(s, s', {p})
    ensures var r, r' := s.reps[p], s'.reps[p];
            && Quiet(r') && Member(r', w, |r.log| + 1) && r'.log == r.log + [e] && Counted(cfg, r') && |r'.acked| == cfg.n && r'.acked[p] >= |r.log| + 1
            && Prepare(w, |r.log| + 1, e, r.commit) in s'.h.msgs && r.commit <= r'.commit
  {
    hide Goes, AtRest, Counted;
    CalmRep(cfg, run, calm, s, p);
    var r := s.reps[p];
    assert r.disk.lastNormal == w by { RestDisk(r); }
    var s1 := Act1(cfg, run, calm, s, Act(p, ClientEntry(e)));
    var m := Prepare(w, |r.log| + 1, e, r.commit);
    assert s1.reps[p] == OnRequest(cfg, p, r, e);
    SameCounted(cfg, r, s1.reps[p]);
    var s2 := DrainsOne(cfg, run, calm, s1, p, m);
    SameCounted(cfg, s1.reps[p], s2.reps[p]);
    s' := Settles(cfg, run, calm, s2, p);
  }

  lemma RestDisk(r: Replica)
    requires AtRest(r)
    ensures r.disk.lastNormal == r.lastNormal && r.durable == |r.log| && r.changed.None?
  {
  }

  lemma SameCounted(cfg: Config, r: Replica, r': Replica)
    requires r'.acked == r.acked && r'.commit == r.commit
    ensures Counted(cfg, r) ==> Counted(cfg, r')
  {
  }

  // ---------------------------------------------------------------------------
  // A backup follows

  /** A `Prepare` of the next op, taken by a backup whose writes are all on disk. */
  lemma PreparedShape(cfg: Config, i: nat, r: Replica, w: nat, e: LogEntry, c: nat)
    requires Accepts(cfg, i, r, w) && r.commit <= |r.log|
    ensures var r' := OnPrepare(cfg, i, r, w, |r.log| + 1, e, c);
            && r'.view == r.view && r'.lastNormal == r.lastNormal && r'.status == Normal && r'.log == r.log + [e]
            && PrepareOk(w, |r.log| + 1, i) in r'.outbox && r'.commit == Max(r.commit, Min(c, |r.log| + 1))
  {
    hide CommitUpTo;
    CommitRuns(cfg, i, Append(r, e), Min(c, |r.log| + 1));
  }

  lemma FollowsPrepare(cfg: Config, run: seq<System>, calm: Option<nat>, s: System, i: nat, w: nat, n: nat, e: LogEntry, c: nat) returns (s': System)
    requires cfg.Sound() && Goes(cfg, run, calm, s) && i < cfg.n && i < |s.reps| && cfg.Primary(w) != i && Member(s.reps[i], w, n) && CalmIn(calm, w)
    requires Prepare(w, n + 1, e, c) in s.h.msgs
    ensures Goes(cfg, run, calm, s') && Only(s, s', {i}) && Member(s'.reps[i], w, n + 1) && PrepareOk(w, n + 1, i) in s'.h.msgs
    ensures s'.reps[i].log == s.reps[i].log + [e] && s'.reps[i].commit >= Min(c, n + 1)
  {
    hide Goes, AtRest, Counted, OnPrepare;
    CalmRep(cfg, run, calm, s, i);
    CommitInLog(cfg, run, calm, s, i);
    PreparedShape(cfg, i, s.reps[i], w, e, c);
    var s1 := Act1(cfg, run, calm, s, Act(i, Receive(Prepare(w, n + 1, e, c))));
    s' := Settles(cfg, run, calm, s1, i);
  }

  lemma {:induction false} PrepareAll(cfg: Config, run: seq<System>, calm: Option<nat>, s: System, who: set<nat>, w: nat, n: nat, e: LogEntry, c: nat)
      returns (s': System)
    requires cfg.Sound() && Goes(cfg, run, calm, s) && cfg.Primary(w) !in who && Prepare(w, n + 1, e, c) in s.h.msgs && CalmIn(calm, w)
    requires forall i {:trigger i in who} :: i in who ==> i < cfg.n && i < |s.reps| && Member(s.reps[i], w, n)
    ensures Goes(cfg, run, calm, s') && Only(s, s', who)
    ensures forall i {:trigger i in who} :: i in who ==>
              i < |s'.reps| && Member(s'.reps[i], w, n + 1) && PrepareOk(w, n + 1, i) in s'.h.msgs && s'.reps[i].commit >= Min(c, n + 1)
    decreases who
  {
    hide Goes, AtRest;
    if who == {} {
      s' := s;
    } else {
      var i :| i in who;
      var s1 := FollowsPrepare(cfg, run, calm, s, i, w, n, e, c);
      var rest := who - {i};
      s' := PrepareAll(cfg, run, calm, s1, rest, w, n, e, c);
      forall k | k in who
        ensures k < |s'.reps| && Member(s'.reps[k], w, n + 1) && PrepareOk(w, n + 1, k) in s'.h.msgs && s'.reps[k].commit >= Min(c, n + 1)
      {
        assert k == i || k in rest;
      }
    }
  }

  // ---------------------------------------------------------------------------
  // The primary counts

  /** What acknowledgements commit executes at once where all is on disk. */
  lemma AckRests(cfg: Config, i: nat, r: Replica, from: nat, op: int)
    requires AtRest(r)
    ensures AtRest(RegisterAck(cfg, i, r, from, op))
  {
    hide CommitUpTo, QuorumMark;
    var op' := Min(op, |r.log|);
    if from < |r.acked| && op' > r.acked[from] {
      var r1 := r.(acked := r.acked[from := op']);
      CommitRuns(cfg, i, r1, QuorumMark(cfg, r1.acked, |r1.acked|));
    }
  }

  lemma CountsOne(cfg: Config, run: seq<System>, calm: Option<nat>, s: System, p: nat, w: nat, n: nat, from: nat) returns (s': System)
    requires cfg.Sound() && Goes(cfg, run, calm, s) && p < cfg.n && p < |s.reps| && cfg.Primary(w) == p && Member(s.reps[p], w, n) && CalmIn(calm, w)
    requires from < cfg.n && from != p && PrepareOk(w, n, from) in s.h.msgs && |s.reps[p].acked| == cfg.n && Counted(cfg, s.reps[p]) && Quiet(s.reps[p])
    ensures Goes(cfg, run, calm, s') && Only(s, s', {p})
    ensures var r, r' := s.reps[p], s'.reps[p];
            && Quiet(r') && Member(r', w, n) && Counted(cfg, r') && |r'.acked| == cfg.n && r'.acked[from] >= n && r'.log == r.log && r.commit <= r'.commit
            && forall k :: 0 <= k < cfg.n ==> r.acked[k] <= r'.acked[k]
  {
    hide Goes, AtRest, Counted, RegisterAck;
    CalmRep(cfg, run, calm, s, p);
    var r := s.reps[p];
    AckRuns(cfg, p, r, from, n);
    AckRests(cfg, p, r, from, n);
    s' := Act1(cfg, run, calm, s, Act(p, Receive(PrepareOk(w, n, from))));
    assert s'.reps[p] == RegisterAck(cfg, p, r, from, n);
  }

  lemma {:induction false} CountAll(cfg: Config, run: seq<System>, calm: Option<nat>, s: System, p: nat, w: nat, n: nat, who: set<nat>) returns (s': System)
    requires cfg.Sound() && Goes(cfg, run, calm, s) && p < cfg.n && p < |s.reps| && cfg.Primary(w) == p && Member(s.reps[p], w, n) && CalmIn(calm, w)
    requires |s.reps[p].acked| == cfg.n && Counted(cfg, s.reps[p]) && Quiet(s.reps[p]) && p !in who
    requires forall i {:trigger i in who} :: i in who ==> i < cfg.n && PrepareOk(w, n, i) in s.h.msgs
    ensures Goes(cfg, run, calm, s') && Only(s, s', {p})
    ensures var r, r' := s.reps[p], s'.reps[p];
            && Quiet(r') && Member(r', w, n) && Counted(cfg, r') && |r'.acked| == cfg.n && r'.log == r.log && r.commit <= r'.commit
            && (forall k :: 0 <= k < cfg.n ==> r.acked[k] <= r'.acked[k]) && forall k :: k in who ==> r'.acked[k] >= n
    decreases who
  {
    hide Goes, AtRest, Counted;
    if who == {} {
      s' := s;
    } else {
      var i :| i in who;
      var s1 := CountsOne(cfg, run, calm, s, p, w, n, i);
      s' := CountAll(cfg, run, calm, s1, p, w, n, who - {i});
    }
  }

  /** What a quorum has acknowledged is committed. */
  lemma AllAcked(cfg: Config, r: Replica, n: nat, q: set<nat>)
    requires cfg.IsQuorum(q) && Counted(cfg, r) && |r.acked| == cfg.n && forall k :: k in q ==> r.acked[k] >= n
    ensures r.commit >= n
  {
    hide QuorumMark;
    assert q <= Reaching(r.acked, n);
    SubsetCount(q, Reaching(r.acked, n));
    if QuorumMark(cfg, r.acked, |r.acked|) < n {
      QuorumMarkIsHighest(cfg, r.acked, n);
    }
  }

  // ---------------------------------------------------------------------------
  // Rounds

  /** The replicas are together, and their primary has committed and executed its whole log. */
  ghost predicate Served(cfg: Config, s: System, w: nat, p: nat, q: set<nat>) {
    && Together(cfg, s, w, p, q)
    && s.reps[p].commit == |s.reps[p].sm| == |s.reps[p].log|
  }

  /** An entry is prepared by all of the quorum and committed by the primary, and the others commit what the
      primary had committed before. */
  lemma Round(cfg: Config, run: seq<System>, calm: Option<nat>, s: System, w: nat, p: nat, q: set<nat>, e: LogEntry) returns (s': System)
    requires cfg.Sound() && Goes(cfg, run, calm, s) && Together(cfg, s, w, p, q) && CalmIn(calm, w)
    ensures Goes(cfg, run, calm, s') && Served(cfg, s', w, p, q) && s'.reps[p].log == s.reps[p].log + [e] && Only(s, s', q)
    ensures forall j {:trigger s'.reps[j]} :: j in q ==> s'.reps[j].commit >= s.reps[p].commit
  {
    hide Goes, AtRest, Counted, Quiet;
    var r, n := s.reps[p], |s.reps[p].log|;
    CommitInLog(cfg, run, calm, s, p);
    var s1 := Prepares(cfg, run, calm, s, w, p, q, e);
    var who := q - {p};
    var s2 := PrepareAll(cfg, run, calm, s1, who, w, n, e, r.commit);
    s' := CountAll(cfg, run, calm, s2, p, w, n + 1, who);
    OnlyJoin(s, s1, s2, {p}, who, q);
    OnlyJoin(s, s2, s', q, {p}, q);
    forall k | k in q
      ensures s'.reps[p].acked[k] >= n + 1
    {
      assert k == p || k in who;
    }
    AllAcked(cfg, s'.reps[p], n + 1, q);
    CommitInLog(cfg, run, calm, s', p);
    RestRan(s'.reps[p]);
    CalmRep(cfg, run, calm, s', p);
    forall j | j in q
      ensures Member(s'.reps[j], w, n + 1) && s'.reps[j].commit >= r.commit
    {
      assert j == p || j in who;
    }
  }

  lemma RestRan(r: Replica)
    requires AtRest(r) && r.commit <= |r.log|
    ensures |r.sm| >= r.commit
  {
  }

  // ---------------------------------------------------------------------------
  // The others are told

  lemma ToldShape(cfg: Config, i: nat, r: Replica, w: nat, n: nat)
    requires Accepts(cfg, i, r, w) && AtRest(r) && |r.log| == n && r.commit <= n
    ensures var r' := OnCommit(cfg, i, r, w, n);
            && r'.view == r.view && r'.lastNormal == r.lastNormal && r'.status == Normal && r'.log == r.log && r'.commit == n && AtRest(r')
  {
    hide CommitUpTo;
    CommitRuns(cfg, i, r, n);
  }

  /** A replica has committed and executed the whole of its log of `n` entries. */
  ghost predicate Done(r: Replica, w: nat, n: nat) { Member(r, w, n) && r.commit == |r.sm| == n && r.sm == r.log }

  lemma IsTold(cfg: Config, run: seq<System>, calm: Option<nat>, s: System, i: nat, w: nat, n: nat) returns (s': System)
    requires cfg.Sound() && Goes(cfg, run, calm, s) && i < cfg.n && i < |s.reps| && cfg.Primary(w) != i && Member(s.reps[i], w, n) && CalmIn(calm, w)
    requires Commit(w, n) in s.h.msgs
    ensures Goes(cfg, run, calm, s') && Only(s, s', {i}) && Done(s'.reps[i], w, n)
  {
    hide Goes, AtRest, OnCommit;
    CalmRep(cfg, run, calm, s, i);
    CommitInLog(cfg, run, calm, s, i);
    ToldShape(cfg, i, s.reps[i], w, n);
    s' := Act1(cfg, run, calm, s, Act(i, Receive(Commit(w, n))));
    assert s'.reps[i] == OnCommit(cfg, i, s.reps[i], w, n);
    AllRan(cfg, run, calm, s', i, w, n);
  }

  lemma AllRan(cfg: Config, run: seq<System>, calm: Option<nat>, s: System, i: nat, w: nat, n: nat)
    requires cfg.Sound() && Goes(cfg, run, calm, s) && i < cfg.n && i < |s.reps| && Member(s.reps[i], w, n) && s.reps[i].commit == n
    ensures Done(s.reps[i], w, n)
  {
    hide Goes, HistoryOk, RepOk;
    RestRan(s.reps[i]) by { CommitInLog(cfg, run, calm, s, i); }
    RepHolds(cfg, run, calm, s, i);
    ExecutedPart(s.h, i, s.reps[i]);
  }

  lemma {:induction false} TellAll(cfg: Config, run: seq<System>, calm: Option<nat>, s: System, who: set<nat>, w: nat, n: nat) returns (s': System)
    requires cfg.Sound() && Goes(cfg, run, calm, s) && cfg.Primary(w) !in who && Commit(w, n) in s.h.msgs && CalmIn(calm, w)
    requires forall i {:trigger i in who} :: i in who ==> i < cfg.n && i < |s.reps| && Member(s.reps[i], w, n)
    ensures Goes(cfg, run, calm, s') && Only(s, s', who)
    ensures forall i {:trigger i in who} :: i in who ==> i < |s'.reps| && Done(s'.reps[i], w, n)
    decreases who
  {
    hide Goes, AtRest;
    if who == {} {
      s' := s;
    } else {
      var i :| i in who;
      var s1 := IsTold(cfg, run, calm, s, i, w, n);
      var rest := who - {i};
      s' := TellAll(cfg, run, calm, s1, rest, w, n);
      forall k | k in who
        ensures k < |s'.reps| && Done(s'.reps[k], w, n)
      {
        assert k == i || k in rest;
      }
    }
  }

  /** The primary sends its commit number. */
  lemma Tells(cfg: Config, run: seq<System>, calm: Option<nat>, s: System, w: nat, p: nat, q: set<nat>) returns (s': System)
    requires cfg.Sound() && Goes(cfg, run, calm, s) && Together(cfg, s, w, p, q) && CalmIn(calm, w)
    ensures Goes(cfg, run, calm, s') && Only(s, s', {p}) && Commit(w, s.reps[p].commit) in s'.h.msgs
    ensures s'.reps[p] == s.reps[p].(early := s'.reps[p].early, q := s'.reps[p].q)
    ensures s'.reps[p].q == s.reps[p].q.(unsent := false)
  {
    hide Goes, AtRest, Counted;
    CalmRep(cfg, run, calm, s, p);
    var r, m := s.reps[p], Commit(w, s.reps[p].commit);
    assert r.disk.lastNormal == w by { RestDisk(r); }
    var s1 := Act1(cfg, run, calm, s, Act(p, IdlePrimary(0)));
    assert s1.reps[p] == OnIdlePrimary(cfg, p, r, 0);
    assert m in s1.reps[p].early && s1.reps[p] == r.(early := s1.reps[p].early);
    s' := DrainsOne(cfg, run, calm, s1, p, m);
  }

  /** The replicas of `q` have committed and executed the same log, in one view. */
  ghost predicate AllDone(cfg: Config, s: System, w: nat, log: Log, q: set<nat>) {
    && |s.reps| == cfg.n
    && forall j {:trigger s.reps[j]} :: 0 <= j < cfg.n && j in q ==>
         var r := s.reps[j]; r.view == w && r.status == Normal && r.log == r.sm == log && r.commit == |log|
  }

  lemma Finish(cfg: Config, run: seq<System>, calm: Option<nat>, s: System, w: nat, p: nat, q: set<nat>) returns (s': System)
    requires cfg.Sound() && Goes(cfg, run, calm, s) && Served(cfg, s, w, p, q) && CalmIn(calm, w)
    ensures Goes(cfg, run, calm, s') && AllDone(cfg, s', w, s.reps[p].log, q) && Only(s, s', q)
  {
    hide Goes, AtRest, Counted;
    var n := |s.reps[p].log|;
    var s1 := Tells(cfg, run, calm, s, w, p, q);
    assert AtRest(s1.reps[p]) by { RestSame(s.reps[p], s1.reps[p]); }
    var who := q - {p};
    var s2 := TellAll(cfg, run, calm, s1, who, w, n);
    s' := s2;
    OnlyJoin(s, s1, s', {p}, who, q);
    CalmRep(cfg, run, calm, s', p);
    AllRan(cfg, run, calm, s', p, w, n);
    forall j | 0 <= j < cfg.n && j in q
      ensures Done(s'.reps[j], w, n) && s'.reps[j].log == s.reps[p].log
    {
      assert j == p || j in who;
      if j != p {
        NoLonger(cfg, run, calm, s', j, p);
      }
    }
  }

  lemma RestSame(r: Replica, r': Replica)
    requires AtRest(r) && r' == r.(early := r'.early, q := r'.q)
    ensures AtRest(r')
  {
  }

  // ---------------------------------------------------------------------------
  // From any state

  lemma Stopped(cfg: Config, run: seq<System>)
    requires IsRun(cfg, run)
    ensures run != [] && Goes(cfg, run, None, run[|run| - 1])
  {
    assert GoesBy(cfg, run, None, run[|run| - 1], run);
  }

  /** What has completed is in the log of the view in which a quorum is together. */
  lemma CompletedInLog(cfg: Config, run: seq<System>, calm: Option<nat>, s: System, w: nat, p: nat, q: set<nat>)
    requires cfg.Sound() && Goes(cfg, run, calm, s) && Together(cfg, s, w, p, q)
    ensures s.h.completed <= s.reps[p].log
  {
    hide Goes, HistoryOk, RepOk, AtRest, Counted;
    RepHolds(cfg, run, calm, s, p);
    LeaderLog(s.h, p, s.reps[p]);
    if s.h.completed != [] {
      var u := ChosenView(s.h);
      if u > 0 {
        var j := Witness(s.h, u, q);
        RepHolds(cfg, run, calm, s, j);
        NotBehind(s.h, j, s.reps[j], u);
      }
      LaterLog(s.h, u, w);
    }
  }

  lemma ChosenView(h: History) returns (u: nat)
    requires HistoryOk(h) && h.completed != []
    ensures u in h.views && Chosen(h, u, |h.completed|) && h.completed <= h.views[u].log
  {
    u :| Chosen(h, u, |h.completed|) && h.completed <= h.views[u].log;
  }

  /** Of every quorum someone took part in the start of a view. */
  lemma Witness(h: History, u: nat, q: set<nat>) returns (j: nat)
    requires HistoryOk(h) && u in h.views && u > 0 && h.cfg.IsQuorum(q)
    ensures j in q && (j == h.cfg.Primary(u) || (exists d :: DoViewChange(u, j, d) in h.msgs))
  {
    hide CompletedOk, ReportsKeep, MsgsOk, ConfirmsOk, OriginLog;
    OriginParts(h, u);
    var o := h.views[u].origin;
    j := QuorumsMeet(h.cfg, q, o.reports.Keys);
    assert ReportedBy(h, u, Born(h, u), j, o.reports[j], o.reports[o.best]);
  }

  /** Who did is not behind it. */
  lemma NotBehind(h: History, j: nat, r: Replica, u: nat)
    requires HistoryOk(h) && RepOk(h, j, r) && u in h.views && (j == h.cfg.Primary(u) || (exists d :: DoViewChange(u, j, d) in h.msgs))
    ensures u <= r.view
  {
    hide CompletedOk, ReportsKeep, MsgsOk, ConfirmsOk, ViewsOk;
    RepFacts(h, j, r);
    if j == h.cfg.Primary(u) {
      assert LeadsOk(h, j, Snapshot(r), r.disk);
      assert h.views[u] == h.views[u];
    }
  }

  lemma LaterLog(h: History, u: nat, w: nat)
    requires HistoryOk(h) && Chosen(h, u, |h.completed|) && h.completed <= h.views[u].log && u <= w && w in h.views
    ensures h.completed <= h.views[w].log
  {
    var n := |h.completed|;
    assert u in h.views;
    KeptHolds(h, u, n, w) by { hide Chosen; }
    hide HistoryOk, Chosen;
    SameStart(h.views[w].log, h.views[u].log, n);
    assert h.views[w].log[..n] == h.views[u].log[..n] == h.completed;
  }

  /** What had completed stays so. */
  lemma StillCompleted(cfg: Config, run: seq<System>, calm: Option<nat>, s: System)
    requires cfg.Sound() && Goes(cfg, run, calm, s) && run != []
    ensures run[|run| - 1].h.completed <= s.h.completed
  {
    hide Inv, IsRun;
    var run' :| GoesBy(cfg, run, calm, s, run');
    RunOk(cfg, run', |run| - 1, |run'| - 1);
  }

  /** No reachable state is a dead end: however a run has gone, with whatever crashes and losses, the replicas of
      any quorum, led by any one of them, can go on without the others to commit and execute an entry that
      a client asks for, after all that had completed. */
  lemma EveryRunGoesOn(cfg: Config, run: seq<System>, q: set<nat>, p: nat, e: LogEntry) returns (run': seq<System>, w: nat, log: Log)
    requires cfg.Sound() && IsRun(cfg, run) && cfg.IsQuorum(q) && p in q
    ensures run != [] && IsRun(cfg, run') && run <= run' && Only(run[|run| - 1], run'[|run'| - 1], q)
    ensures AllDone(cfg, run'[|run'| - 1], w, log, q) && cfg.Primary(w) == p
    ensures run[|run| - 1].h.completed < log && log[|log| - 1] == e
  {
    hide IsRun, AllDone, Inv, Goes, AtRest, Counted, Only;
    Stopped(cfg, run);
    var s := run[|run| - 1];
    var s1;
    s1, w := Assembles(cfg, run, s, q, p);
    CompletedInLog(cfg, run, None, s1, w, p, q);
    StillCompleted(cfg, run, None, s1);
    var s2 := Round(cfg, run, None, s1, w, p, q, e);
    var s3 := Finish(cfg, run, None, s2, w, p, q);
    OnlyJoin(s, s1, s2, q, q, q);
    OnlyJoin(s, s2, s3, q, q, q);
    log := s2.reps[p].log;
    run' := RunOf(cfg, run, None, s3);
  }

  lemma RunOf(cfg: Config, run: seq<System>, calm: Option<nat>, s: System) returns (run': seq<System>)
    requires Goes(cfg, run, calm, s)
    ensures GoesBy(cfg, run, calm, s, run')
  {
    run' :| GoesBy(cfg, run, calm, s, run');
  }

  // ---------------------------------------------------------------------------
  // The normal course

  lemma AtFirst(cfg: Config)
    requires cfg.Valid()
    ensures Together(cfg, Initial(cfg), 0, 0, Range(0, cfg.n)) && Goes(cfg, [Initial(cfg)], Some(0), Initial(cfg)) && Initial(cfg).reps[0] == New(cfg)
  {
    hide QuorumMark;
    NoneAcked(cfg, cfg.n);
    var s := Initial(cfg);
    forall j | 0 <= j < cfg.n
      ensures s.reps[j] == New(cfg)
    {
    }
    assert Member(New(cfg), 0, 0);
    hide Member, New;
    assert GoesBy(cfg, [s], Some(0), s, [s]) by { FirstCalm(cfg); }
  }

  lemma FirstCalm(cfg: Config)
    ensures IsRun(cfg, [Initial(cfg)]) && AllIn(Initial(cfg), 0)
  {
    forall j | 0 <= j < cfg.n
      ensures Initial(cfg).reps[j] == New(cfg)
    {
    }
  }

  /** The normal course, for every number of replicas: the primary prepares the entry of a client, all
      acknowledge it, and with that the primary commits and executes it; with the `Prepare` of the next the
      others do too.  No replica changes views or transfers state on the way. */
  lemma NormalCourse(cfg: Config, e: LogEntry, e': LogEntry) returns (run: seq<System>)
    requires cfg.Sound()
    ensures IsRun(cfg, run) && forall k {:trigger run[k]} :: 0 <= k < |run| ==> AllIn(run[k], 0)
    ensures var s := run[|run| - 1];
            && |s.reps| == cfg.n && s.reps[0].log == s.reps[0].sm == [e, e'] && s.reps[0].commit == 2
            && forall j {:trigger s.reps[j]} :: 0 <= j < cfg.n ==> s.reps[j].log == [e, e'] && [e] <= s.reps[j].sm
  {
    hide IsRun, AllIn, Goes, AtRest, Counted;
    AtFirst(cfg);
    var s := Initial(cfg);
    var q := Range(0, cfg.n);
    var s1 := Round(cfg, [s], Some(0), s, 0, 0, q, e);
    var s2 := Round(cfg, [s], Some(0), s1, 0, 0, q, e');
    run := RunOf(cfg, [s], Some(0), s2);
    assert s2.reps[0].log == [e, e'];
    forall j | 0 <= j < cfg.n
      ensures s2.reps[j].log == [e, e'] && [e] <= s2.reps[j].sm
    {
      MemberOf(cfg, s2, 0, 0, q, j);
      if j != 0 {
        NoLonger(cfg, [s], Some(0), s2, j, 0);
      }
      CommitInLog(cfg, [s], Some(0), s2, j);
      RestRan(s2.reps[j]);
      StateInLog(cfg, [s], Some(0), s2, j);
    }
    StateInLog(cfg, [s], Some(0), s2, 0);
  }

  lemma StateInLog(cfg: Config, run: seq<System>, calm: Option<nat>, s: System, i: nat)
    requires cfg.Sound() && Goes(cfg, run, calm, s) && i < cfg.n
    ensures i < |s.reps| && s.reps[i].sm <= s.reps[i].log
  {
    hide Goes, HistoryOk, RepOk;
    RepHolds(cfg, run, calm, s, i);
    ExecutedPart(s.h, i, s.reps[i]);
  }
}
