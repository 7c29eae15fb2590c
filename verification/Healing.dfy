/** A replica that missed entries, or the start of the view, comes by them from the one that leads it. */
module Healing {
  import opened Types
  import opened Quorums
  import opened Protocol
  import opened Cluster
  import opened Invariant
  import opened Entering
  import opened Growth
  import opened Steps
  import opened Running
  import opened Runs
  import opened Answering
  import opened Continuing
  import opened Reviving
  import opened Serving

  // ---------------------------------------------------------------------------
  // What the handlers do

  /** A replica in view `w` that waits for the primary's log after op `op`. */
  ghost predicate Wants(cfg: Config, r: Replica, w: nat, op: nat) {
    && r.view == w
    && ((r.status == StateTransfer && op == |r.log|)
        || (r.status == ViewChange && r.catchingUp.Some? && op == r.commit && |r.dvcFrom| < cfg.Quorum()))
  }

  lemma BehindShape(cfg: Config, i: nat, r: Replica, w: nat, op: nat, e: LogEntry, c: nat)
    requires cfg.Valid() && cfg.Primary(w) != i && (r.view < w || (r.view == w && r.status == ViewChange && (r.catchingUp.Some? ==> r.dvcFrom == map[])))
    requires r.view == w && r.catchingUp.Some? ==> r.catchingUp == Some(cfg.Primary(w))
    ensures var r' := OnIdleViewChange(cfg, i, OnPrepare(cfg, i, r, w, op, e, c));
            && Wants(cfg, r', w, r.commit) && GetState(i, cfg.Primary(w), w, r.commit) in r'.early
            && r'.log == r.log && r'.commit == r.commit
  {
  }

  lemma GapShape(cfg: Config, i: nat, r: Replica, w: nat, op: nat, e: LogEntry, c: nat)
    requires Accepts(cfg, i, r, w) && op > |r.log| + 1
    ensures var r' := OnPrepare(cfg, i, r, w, op, e, c);
            Wants(cfg, r', w, |r.log|) && GetState(i, cfg.Primary(w), w, |r.log|) in r'.early && r'.log == r.log && r'.commit == r.commit
  {
  }

  lemma AgainShape(cfg: Config, i: nat, r: Replica)
    requires r.status == StateTransfer
    ensures var r' := OnIdleTransfer(cfg, i, r);
            Wants(cfg, r', r.view, |r.log|) && GetState(i, cfg.Primary(r.view), r.view, |r.log|) in r'.early && r'.log == r.log && r'.commit == r.commit
  {
  }

  lemma GivenShape(cfg: Config, i: nat, r: Replica, j: nat, op: nat)
    requires InCharge(cfg, i, r) && op <= |r.log|
    ensures var r' := OnGetState(i, r, j, r.view, op);
            r' == r.(early := r'.early) && NewState(i, j, r.view, op, r.log[op..], r.commit) in r'.early
  {
  }

  /** The segment is taken: a log as long as the primary's, in normal status. */
  lemma TakenShape(cfg: Config, i: nat, r: Replica, w: nat, op: nat, entries: Log, c: nat)
    requires Wants(cfg, r, w, op) && cfg.Primary(w) != i && r.commit <= |r.log|
    requires r.status == StateTransfer ==> op == |r.log| && |entries| > 0 && r.lastNormal == w
    ensures var r' := OnNewState(cfg, i, r, w, op, entries, c);
            r'.view == r'.lastNormal == w && r'.status == Normal && |r'.log| == op + |entries|
            && PrepareOk(w, |r'.log|, i) in r'.outbox && r'.commit >= r.commit
  {
    hide CommitUpTo;
    var r1 := Merge(r, op, entries);
    assert Drop(entries, 0) == entries;
    CommitRuns(cfg, i, r1, c);
    CommitRuns(cfg, i, r1.(catchingUp := None), c);
  }

  // ---------------------------------------------------------------------------
  // In the cluster

  /** What a replica of the view or of an earlier one has committed is within the log of the one that leads it. */
  lemma CommittedWithin(cfg: Config, run: seq<System>, calm: Option<nat>, s: System, i: nat, p: nat)
    requires cfg.Sound() && Goes(cfg, run, calm, s) && i < cfg.n && p < cfg.n && i != p && i < |s.reps| && p < |s.reps|
    requires InCharge(cfg, p, s.reps[p]) && s.reps[p].lastNormal == s.reps[p].view == s.reps[i].view
    ensures s.reps[i].commit <= |s.reps[p].log|
    ensures s.reps[i].status != ViewChange ==> s.reps[i].lastNormal == s.reps[i].view
    ensures s.reps[i].catchingUp.Some? ==> s.reps[i].catchingUp == Some(cfg.Primary(s.reps[i].view)) && s.reps[i].status == ViewChange
    ensures s.reps[i].dvcFrom != map[] ==> cfg.Primary(s.reps[i].view) == i
  {
    hide Goes, HistoryOk, RepOk;
    RepHolds(cfg, run, calm, s, i);
    RepHolds(cfg, run, calm, s, p);
    LeaderLog(s.h, p, s.reps[p]);
    CertainPart(s.h, i, s.reps[i]);
    CertainChosen(s.h, i, s.reps[i].view, s.reps[i].commit, p);
    DecidedOk(s.h, s.reps[i].view, s.reps[i].commit);
  }

  lemma CertainPart(h: History, i: nat, r: Replica)
    requires RepOk(h, i, r)
    ensures Certain(h, i, r.view, r.commit) && (r.status != ViewChange ==> r.lastNormal == r.view)
    ensures r.catchingUp.Some? ==> r.catchingUp == Some(h.cfg.Primary(r.view)) && r.status == ViewChange
    ensures r.dvcFrom != map[] ==> h.cfg.Primary(r.view) == i
    ensures r.status == Normal ==> r.lastNormal == r.view
  {
  }

  /** The primary leads view `w` with this log, and its disk has the view, so what it sends early may leave. */
  ghost predicate Source(cfg: Config, r: Replica, p: nat, w: nat, log: Log) {
    && InCharge(cfg, p, r) && r.view == r.lastNormal == w && r.log == log && r.disk.lastNormal >= w
  }

  /** The replica asks, the primary answers, and the replica has its log. */
  lemma Transfers(cfg: Config, run: seq<System>, s: System, j: nat, p: nat, w: nat, log: Log, op: nat) returns (s': System)
    requires cfg.Sound() && Goes(cfg, run, None, s) && j < cfg.n && p < cfg.n && j != p && j < |s.reps| && p < |s.reps|
    requires Source(cfg, s.reps[p], p, w, log) && Wants(cfg, s.reps[j], w, op) && GetState(j, p, w, op) in s.reps[j].early
    requires op <= |log| && (s.reps[j].status == StateTransfer ==> op < |log|)
    ensures Goes(cfg, run, None, s') && Only(s, s', {p, j})
    ensures Source(cfg, s'.reps[p], p, w, log)
    ensures var r' := s'.reps[j]; r'.view == r'.lastNormal == w && r'.status == Normal && r'.log == log
  {
    hide Goes, OnNewState;
    CalmRep(cfg, run, None, s, p);
    var s1 := DrainsOne(cfg, run, None, s, j, GetState(j, p, w, op));
    GivenShape(cfg, p, s1.reps[p], j, op);
    var s2 := Act1(cfg, run, None, s1, Act(p, Receive(GetState(j, p, w, op))));
    var m := NewState(p, j, w, op, log[op..], s1.reps[p].commit);
    assert s2.reps[p] == OnGetState(p, s1.reps[p], j, w, op);
    var s3 := DrainsOne(cfg, run, None, s2, p, m);
    s' := Takes(cfg, run, s3, j, p, w, log, op, s1.reps[p].commit);
  }

  lemma Takes(cfg: Config, run: seq<System>, s: System, j: nat, p: nat, w: nat, log: Log, op: nat, c: nat) returns (s': System)
    requires cfg.Sound() && Goes(cfg, run, None, s) && j < cfg.n && p < cfg.n && j != p && j < |s.reps| && p < |s.reps|
    requires Source(cfg, s.reps[p], p, w, log) && Wants(cfg, s.reps[j], w, op) && op <= |log| && (s.reps[j].status == StateTransfer ==> op < |log|)
    requires NewState(p, j, w, op, log[op..], c) in s.h.msgs
    ensures Goes(cfg, run, None, s') && Only(s, s', {j})
    ensures Source(cfg, s'.reps[p], p, w, log)
    ensures var r' := s'.reps[j]; r'.view == r'.lastNormal == w && r'.status == Normal && r'.log == log
  {
    hide Goes, OnNewState;
    CalmRep(cfg, run, None, s, j);
    CommitInLog(cfg, run, None, s, j);
    CommittedWithin(cfg, run, None, s, j, p);
    TakenShape(cfg, j, s.reps[j], w, op, log[op..], c);
    s' := Act1(cfg, run, None, s, Act(j, Receive(NewState(p, j, w, op, log[op..], c))));
    assert s'.reps[j] == OnNewState(cfg, j, s.reps[j], w, op, log[op..], c);
    NoLonger(cfg, run, None, s', j, p);
  }

  /** The primary appends an entry and sends its `Prepare`. */
  lemma Leads(cfg: Config, run: seq<System>, s: System, p: nat, e: LogEntry) returns (s': System, c: nat)
    requires cfg.Sound() && Goes(cfg, run, None, s) && p < cfg.n && p < |s.reps| && InCharge(cfg, p, s.reps[p])
    ensures Goes(cfg, run, None, s') && Only(s, s', {p})
    ensures var r := s.reps[p]; Source(cfg, s'.reps[p], p, r.view, r.log + [e]) && Prepare(r.view, |r.log| + 1, e, c) in s'.h.msgs
  {
    hide Goes, HistoryOk, RepOk, Counted;
    CalmRep(cfg, run, None, s, p);
    RepHolds(cfg, run, None, s, p);
    CertainPart(s.h, p, s.reps[p]);
    var s1 := Settles(cfg, run, None, s, p);
    var r := s1.reps[p];
    c := r.commit;
    var s2 := Act1(cfg, run, None, s1, Act(p, ClientEntry(e)));
    assert s2.reps[p] == OnRequest(cfg, p, r, e);
    s' := DrainsOne(cfg, run, None, s2, p, Prepare(r.view, |r.log| + 1, e, c));
  }

  /** A replica behind the view, or left without it, asks for all it has not committed. */
  lemma AsksBehind(cfg: Config, run: seq<System>, s: System, j: nat, p: nat, w: nat, log: Log, e: LogEntry, c: nat) returns (s': System)
    requires cfg.Sound() && Goes(cfg, run, None, s) && j < cfg.n && p < cfg.n && j != p && j < |s.reps| && p < |s.reps|
    requires Source(cfg, s.reps[p], p, w, log) && Prepare(w, |log|, e, c) in s.h.msgs
    requires s.reps[j].view < w || (s.reps[j].view == w && s.reps[j].status == ViewChange)
    ensures Goes(cfg, run, None, s') && Only(s, s', {j}) && s'.reps[j].status == ViewChange
    ensures var op := s.reps[j].commit; Wants(cfg, s'.reps[j], w, op) && GetState(j, p, w, op) in s'.reps[j].early && op <= |log|
  {
    hide Goes, OnPrepare, OnIdleViewChange;
    CalmRep(cfg, run, None, s, j);
    var r := s.reps[j];
    if r.view == w {
      CommittedWithin(cfg, run, None, s, j, p);
    }
    BehindShape(cfg, j, r, w, |log|, e, c);
    var s1 := Act1(cfg, run, None, s, Act(j, Receive(Prepare(w, |log|, e, c))));
    assert s1.reps[j] == OnPrepare(cfg, j, r, w, |log|, e, c);
    s' := Act1(cfg, run, None, s1, Act(j, IdleViewChange));
    assert s'.reps[j] == OnIdleViewChange(cfg, j, s1.reps[j]);
    CommittedWithin(cfg, run, None, s', j, p);
    BehindStatus(cfg, j, r, w, |log|, e, c);
  }

  lemma BehindStatus(cfg: Config, i: nat, r: Replica, w: nat, op: nat, e: LogEntry, c: nat)
    requires cfg.Valid() && cfg.Primary(w) != i && (r.view < w || (r.view == w && r.status == ViewChange && (r.catchingUp.Some? ==> r.dvcFrom == map[])))
    requires r.view == w && r.catchingUp.Some? ==> r.catchingUp == Some(cfg.Primary(w))
    ensures OnIdleViewChange(cfg, i, OnPrepare(cfg, i, r, w, op, e, c)).status == ViewChange
  {
  }

  /** Whatever replica `j` missed, it has the primary's log once it heard of an entry and got what it asked for. */
  lemma Heals(cfg: Config, run: seq<System>, s: System, j: nat, p: nat, w: nat, log: Log, e: LogEntry, c: nat) returns (s': System)
    requires cfg.Sound() && Goes(cfg, run, None, s) && j < cfg.n && p < cfg.n && j != p && j < |s.reps| && p < |s.reps|
    requires Source(cfg, s.reps[p], p, w, log) && Prepare(w, |log|, e, c) in s.h.msgs && s.reps[j].view <= w
    requires s.reps[j].view == w && s.reps[j].status != ViewChange ==> |s.reps[j].log| < |log|
    ensures Goes(cfg, run, None, s') && Only(s, s', {p, j})
    ensures Source(cfg, s'.reps[p], p, w, log)
    ensures var r' := s'.reps[j]; r'.view == r'.lastNormal == w && r'.status == Normal && r'.log == log
  {
    hide Goes, Wants, OnPrepare, OnIdleTransfer;
    CalmRep(cfg, run, None, s, j);
    var r := s.reps[j];
    if r.view < w || r.status == ViewChange {
      var s1 := AsksBehind(cfg, run, s, j, p, w, log, e, c);
      s' := Transfers(cfg, run, s1, j, p, w, log, r.commit);
    } else {
      CommittedWithin(cfg, run, None, s, j, p);
      if r.status == StateTransfer {
        AgainShape(cfg, j, r);
        var s1 := Act1(cfg, run, None, s, Act(j, IdleTransfer));
        assert s1.reps[j] == OnIdleTransfer(cfg, j, r);
        s' := Transfers(cfg, run, s1, j, p, w, log, |r.log|);
      } else {
        s' := HealsNormal(cfg, run, s, j, p, w, log, e, c);
      }
    }
  }

  lemma HealsNormal(cfg: Config, run: seq<System>, s: System, j: nat, p: nat, w: nat, log: Log, e: LogEntry, c: nat) returns (s': System)
    requires cfg.Sound() && Goes(cfg, run, None, s) && j < cfg.n && p < cfg.n && j != p && j < |s.reps| && p < |s.reps|
    requires Source(cfg, s.reps[p], p, w, log) && Prepare(w, |log|, e, c) in s.h.msgs && |s.reps[j].log| < |log|
    requires var r := s.reps[j]; r.view == r.lastNormal == w && r.status == Normal
    ensures Goes(cfg, run, None, s') && Only(s, s', {p, j})
    ensures Source(cfg, s'.reps[p], p, w, log)
    ensures var r' := s'.reps[j]; r'.view == r'.lastNormal == w && r'.status == Normal && r'.log == log
  {
    hide Goes, Wants, OnPrepare;
    CalmRep(cfg, run, None, s, j);
    var r := s.reps[j];
    var s1 := Act1(cfg, run, None, s, Act(j, Receive(Prepare(w, |log|, e, c))));
    assert s1.reps[j] == OnPrepare(cfg, j, r, w, |log|, e, c);
    if |log| > |r.log| + 1 {
      GapShape(cfg, j, r, w, |log|, e, c);
      s' := Transfers(cfg, run, s1, j, p, w, log, |r.log|);
    } else {
      CommitInLog(cfg, run, None, s, j);
      PreparedShape(cfg, j, r, w, e, c);
      s' := s1;
      NoLonger(cfg, run, None, s', j, p);
    }
  }

  /** A replica that is behind can catch up: however a run has gone, a replica that leads a view and any other
      that is not past that view can go on, the two alone, to hold the same log in it, with an entry more. */
  lemma CatchesUp(cfg: Config, run: seq<System>, p: nat, j: nat, e: LogEntry) returns (run': seq<System>)
    requires cfg.Sound() && IsRun(cfg, run) && p < cfg.n && j < cfg.n && p != j
    requires var s := run[|run| - 1]; p < |s.reps| && j < |s.reps| && InCharge(cfg, p, s.reps[p]) && s.reps[j].view <= s.reps[p].view
    ensures IsRun(cfg, run') && run <= run'
    ensures var s, s' := run[|run| - 1], run'[|run'| - 1];
            && Only(s, s', {p, j})
            && InCharge(cfg, p, s'.reps[p]) && s'.reps[p].view == s'.reps[j].view == s.reps[p].view
            && s'.reps[p].log == s'.reps[j].log == s.reps[p].log + [e] && s'.reps[j].status == Normal
  {
    hide IsRun, Goes;
    Stopped(cfg, run);
    var s := run[|run| - 1];
    var w, log := s.reps[p].view, s.reps[p].log + [e];
    NotAhead(cfg, run, s, j, p);
    var s1, c := Leads(cfg, run, s, p, e);
    var s2 := Heals(cfg, run, s1, j, p, w, log, e, c);
    run' := RunOf(cfg, run, None, s2);
  }

  lemma NotAhead(cfg: Config, run: seq<System>, s: System, i: nat, p: nat)
    requires cfg.Sound() && Goes(cfg, run, None, s) && i < cfg.n && p < cfg.n && i != p && i < |s.reps| && p < |s.reps| && InCharge(cfg, p, s.reps[p])
    ensures s.reps[i].view == s.reps[p].view && s.reps[i].status != ViewChange ==> |s.reps[i].log| <= |s.reps[p].log|
  {
    hide Goes, HistoryOk, RepOk;
    RepHolds(cfg, run, None, s, i);
    RepHolds(cfg, run, None, s, p);
    CertainPart(s.h, i, s.reps[i]);
    CertainPart(s.h, p, s.reps[p]);
    if s.reps[i].view == s.reps[p].view && s.reps[i].status != ViewChange {
      NoLonger(cfg, run, None, s, i, p);
    }
  }
}
