/** Scripts of a view that has started: an entry is appended, followed, acknowledged and committed. */
module Committing {
  import opened Types
  import opened Quorums
  import opened Protocol
  import opened Cluster
  import opened Runs
  import opened Electing

  // ---------------------------------------------------------------------------
  // The primary

  lemma Appends(cfg: Config, s: System, i: nat, v: nat, log: Log, e: LogEntry) returns (s': System)
    requires Live(cfg, s) && i < cfg.n && i < |s.reps| && Leads(cfg, i, s.reps[i], v, log, {})
    ensures Live(cfg, s') && Only(s, s', {i}) && Leads(cfg, i, s'.reps[i], v, log + [e], {}) && Electing.Keeps(s.reps[i], s'.reps[i])
  {
    s' := Do(cfg, s, i, ClientEntry(e));
    hide Live;
  }

  /** A late vote makes it send the view's log again. */
  lemma Announces(cfg: Config, s: System, i: nat, v: nat, log: Log, from: nat) returns (s': System)
    requires Live(cfg, s) && i < cfg.n && i < |s.reps| && Leads(cfg, i, s.reps[i], v, log, {}) && from != i && StartViewChange(v, from) in s.h.msgs
    ensures Live(cfg, s') && Only(s, s', {i}) && Leads(cfg, i, s'.reps[i], v, log, {}) && Electing.Keeps(s.reps[i], s'.reps[i])
    ensures StartView(v, log, 0) in s'.reps[i].outbox
  {
    s' := Do(cfg, s, i, Receive(StartViewChange(v, from)));
    hide Live;
  }

  /** Acknowledgements of one entry: they commit it once a quorum has. */
  lemma MarkOf(cfg: Config, marks: seq<nat>, acks: set<nat>)
    requires forall j {:trigger marks[j]} :: 0 <= j < |marks| ==> marks[j] == if j in acks then 1 else 0
    requires forall j :: j in acks ==> j < |marks|
    ensures QuorumMark(cfg, marks, |marks|) == if |acks| >= cfg.Quorum() then 1 else 0
  {
    hide QuorumMark;
    var c := QuorumMark(cfg, marks, |marks|);
    assert Reaching(marks, 1) == acks;
    assert marks[..|marks|] == marks;
    assert c == 0 || c == 1;
    if acks != {} {
      var j :| j in acks;
      assert marks[j] == 1;
    }
  }

  /** It counts an acknowledgement, and no quorum has acknowledged yet. */
  lemma CountsOne(cfg: Config, i: nat, r: Replica, v: nat, e: LogEntry, acks: set<nat>, from: nat, op: nat)
    requires cfg.Valid() && Leads(cfg, i, r, v, [e], acks) && from < cfg.n && op == 1 && |acks + {from}| < cfg.Quorum()
    requires from !in acks && forall j :: j in acks ==> j < cfg.n
    ensures RegisterAck(cfg, i, r, from, op) == r.(acked := r.acked[from := 1])
    ensures Leads(cfg, i, r.(acked := r.acked[from := 1]), v, [e], acks + {from})
  {
    hide QuorumMark;
    MarkOf(cfg, r.acked[from := 1], acks + {from});
  }

  /** It counts one, and commits. */
  lemma CountsLast(cfg: Config, i: nat, r: Replica, v: nat, e: LogEntry, acks: set<nat>, from: nat)
    requires cfg.Valid() && Leads(cfg, i, r, v, [e], acks) && from < cfg.n && |acks + {from}| >= cfg.Quorum()
    requires from !in acks && (forall j :: j in acks ==> j < cfg.n) && r.durable == 1 && r.changed.None?
    ensures RegisterAck(cfg, i, r, from, 1) == r.(acked := r.acked[from := 1], commit := 1, sm := [e])
  {
    hide QuorumMark;
    MarkOf(cfg, r.acked[from := 1], acks + {from});
    var r1 := r.(acked := r.acked[from := 1], commit := 1, sm := [e]);
    assert [] + [e][0..1] == [e];
    NoneWait(cfg, i, r1);
  }

  lemma NoneWait(cfg: Config, i: nat, r: Replica)
    requires r.q.queries == []
    ensures ExecuteQueries(cfg, i, r) == r
  {
  }

  /** Its write lands: what waited leaves, and it acknowledges its own entry. */
  lemma LandsEntry(cfg: Config, s: System, i: nat, v: nat, e: LogEntry) returns (s': System)
    requires cfg.Valid() && Live(cfg, s) && i < cfg.n && i < |s.reps| && Leads(cfg, i, s.reps[i], v, [e], {})
    ensures Live(cfg, s') && Only(s, s', {i}) && Leads(cfg, i, s'.reps[i], v, [e], {i}) && s.reps[i].outbox <= s'.h.msgs
    ensures var r' := s'.reps[i]; r'.disk == Snapshot(r') && r'.durable == 1 && r'.changed.None?
  {
    s' := Lands(cfg, s, i);
    hide Live;
    OwnLanded(cfg, i, s.reps[i], v, e);
  }

  lemma OwnLanded(cfg: Config, i: nat, r: Replica, v: nat, e: LogEntry)
    requires cfg.Valid() && i < cfg.n && Leads(cfg, i, r, v, [e], {})
    ensures var r' := Persisted(cfg, i, TakeWrite(r), false);
            Leads(cfg, i, r', v, [e], {i}) && r'.disk == Snapshot(r') && r'.durable == 1 && r'.changed.None?
  {
    var w := TakeWrite(r);
    var r1 := w.(out := None, disk := w.out.value, durable := 1, waiting := {});
    assert Leads(cfg, i, r1, v, [e], {});
    assert {} + {i} == {i};
    hide RegisterAck;
    CountsOne(cfg, i, r1, v, e, {}, i, 1);
    NoneWait(cfg, i, r1.(acked := r1.acked[i := 1]));
  }

  lemma Counts(cfg: Config, s: System, i: nat, v: nat, e: LogEntry, acks: set<nat>, from: nat) returns (s': System)
    requires cfg.Valid() && Live(cfg, s) && i < cfg.n && i < |s.reps| && Leads(cfg, i, s.reps[i], v, [e], acks)
    requires from != i && from < cfg.n && from !in acks && (forall j :: j in acks ==> j < cfg.n) && |acks + {from}| < cfg.Quorum()
    requires PrepareOk(v, 1, from) in s.h.msgs
    ensures Live(cfg, s') && Only(s, s', {i}) && Leads(cfg, i, s'.reps[i], v, [e], acks + {from})
    ensures s'.reps[i] == s.reps[i].(acked := s'.reps[i].acked)
  {
    hide RegisterAck;
    s' := Do(cfg, s, i, Receive(PrepareOk(v, 1, from)));
    hide Live;
    CountsOne(cfg, i, s.reps[i], v, e, acks, from, 1);
  }

  lemma {:induction false} CountAcks(cfg: Config, s: System, i: nat, v: nat, e: LogEntry, acks: set<nat>, who: set<nat>) returns (s': System)
    requires cfg.Valid() && Live(cfg, s) && i < cfg.n && i < |s.reps| && Leads(cfg, i, s.reps[i], v, [e], acks) && i !in who && acks !! who
    requires (forall j :: j in acks + who ==> j < cfg.n) && |acks + who| < cfg.Quorum()
    requires forall j :: j in who ==> PrepareOk(v, 1, j) in s.h.msgs
    ensures Live(cfg, s') && Only(s, s', {i}) && Leads(cfg, i, s'.reps[i], v, [e], acks + who)
    ensures s'.reps[i] == s.reps[i].(acked := s'.reps[i].acked)
    decreases who
  {
    hide Live, Leads;
    if who == {} {
      s' := s;
      assert acks + who == acks;
    } else {
      var j :| j in who;
      SubsetCount(acks + {j}, acks + who);
      var s1 := Counts(cfg, s, i, v, e, acks, j);
      assert acks + {j} + (who - {j}) == acks + who;
      s' := CountAcks(cfg, s1, i, v, e, acks + {j}, who - {j});
    }
  }

  /** The primary has committed its entry. */
  ghost predicate Commits(cfg: Config, i: nat, r: Replica, v: nat, e: LogEntry) {
    && Sits(cfg, r, v, v, [e], 1) && cfg.Primary(v) == i
  }

  lemma CommitsLast(cfg: Config, s: System, i: nat, v: nat, e: LogEntry, acks: set<nat>, from: nat) returns (s': System)
    requires cfg.Valid() && Live(cfg, s) && i < cfg.n && i < |s.reps| && Leads(cfg, i, s.reps[i], v, [e], acks)
    requires s.reps[i].durable == 1 && s.reps[i].changed.None? && PrepareOk(v, 1, from) in s.h.msgs
    requires from != i && from < cfg.n && from !in acks && (forall j :: j in acks ==> j < cfg.n) && |acks + {from}| >= cfg.Quorum()
    ensures Live(cfg, s') && Only(s, s', {i}) && Commits(cfg, i, s'.reps[i], v, e) && s'.reps[i].disk == s.reps[i].disk
  {
    hide RegisterAck;
    s' := Do(cfg, s, i, Receive(PrepareOk(v, 1, from)));
    hide Live;
    CountsLast(cfg, i, s.reps[i], v, e, acks, from);
  }

  /** It tells the others, at once or once its disk records the view. */
  lemma Tells(cfg: Config, s: System, i: nat, v: nat, log: Log, commit: nat) returns (s': System)
    requires Live(cfg, s) && i < cfg.n && i < |s.reps| && Sits(cfg, s.reps[i], v, v, log, commit) && cfg.Primary(v) == i
    requires cfg.gated ==> s.reps[i].disk.lastNormal >= v
    ensures Live(cfg, s') && Only(s, s', {i}) && s'.reps[i] == s.reps[i].(early := s'.reps[i].early) && Commit(v, commit) in s'.h.msgs
  {
    var s1 := Do(cfg, s, i, IdlePrimary(0));
    assert Commit(v, commit) in s1.reps[i].early;
    s' := Drains(cfg, s1, i, {Commit(v, commit)});
    hide Live;
    OnlyTwice(s, s1, s', {i}, {i});
    assert {i} + {i} == {i};
  }

  /** It answers a replica that asks for the log. */
  lemma Answers(cfg: Config, s: System, i: nat, v: nat, log: Log, commit: nat, to: nat) returns (s': System)
    requires Live(cfg, s) && i < cfg.n && i < |s.reps| && Sits(cfg, s.reps[i], v, v, log, commit) && cfg.Primary(v) == i && to != i
    requires cfg.gated ==> s.reps[i].disk.lastNormal >= v
    requires GetState(to, i, v, 0) in s.h.msgs
    ensures Live(cfg, s') && Only(s, s', {i}) && s'.reps[i] == s.reps[i].(early := s'.reps[i].early)
    ensures NewState(i, to, v, 0, log, commit) in s'.h.msgs
  {
    var s1 := Do(cfg, s, i, Receive(GetState(to, i, v, 0)));
    var m := NewState(i, to, v, 0, log, commit);
    assert log[0..] == log;
    assert m in s1.reps[i].early;
    s' := Drains(cfg, s1, i, {m});
    hide Live;
    OnlyTwice(s, s1, s', {i}, {i});
    assert {i} + {i} == {i};
  }

  // ---------------------------------------------------------------------------
  // The others

  /** Replica `i` changes views, with nothing committed. */
  ghost predicate Lags(cfg: Config, r: Replica, v: nat) {
    Sits(cfg, r, v, r.lastNormal, r.log, 0) && r.lastNormal < v
  }

  /** It follows the view with the log its primary announced, and acknowledges it. */
  lemma Follows(cfg: Config, s: System, i: nat, v: nat, e: LogEntry) returns (s': System)
    requires Live(cfg, s) && i < cfg.n && i < |s.reps| && Lags(cfg, s.reps[i], v) && cfg.Primary(v) != i && StartView(v, [e], 0) in s.h.msgs
    ensures Live(cfg, s') && Only(s, s', {i}) && Sits(cfg, s'.reps[i], v, v, [e], 0) && PrepareOk(v, 1, i) in s'.h.msgs
    ensures s'.reps[i].changed.None? && s'.reps[i].durable == 1
  {
    hide OnStartView;
    var s1 := Do(cfg, s, i, Receive(StartView(v, [e], 0)));
    Followed(cfg, i, s.reps[i], v, e);
    s' := Writes(cfg, s1, i);
    hide Live;
    OnlyTwice(s, s1, s', {i}, {i});
    assert {i} + {i} == {i};
  }

  lemma Followed(cfg: Config, i: nat, r: Replica, v: nat, e: LogEntry)
    requires Lags(cfg, r, v)
    ensures var r' := OnStartView(cfg, i, r, v, [e], 0); Sits(cfg, r', v, v, [e], 0) && PrepareOk(v, 1, i) in r'.outbox
  {
    assert r.log[..0] + Drop([e], 0) == [e];
  }

  lemma {:induction false} FollowAll(cfg: Config, s: System, who: set<nat>, v: nat, e: LogEntry) returns (s': System)
    requires Live(cfg, s) && StartView(v, [e], 0) in s.h.msgs
    requires forall i {:trigger i in who} :: i in who ==> i < cfg.n && i < |s.reps| && cfg.Primary(v) != i && Lags(cfg, s.reps[i], v)
    ensures Live(cfg, s') && Only(s, s', who)
    ensures forall i {:trigger i in who} :: i in who ==> PrepareOk(v, 1, i) in s'.h.msgs
    decreases who
  {
    hide Live, Lags, Sits;
    if who == {} {
      s' := s;
    } else {
      var i :| i in who;
      var s1 := Follows(cfg, s, i, v, e);
      assert forall j {:trigger j in who} :: j in who - {i} ==> s1.reps[j] == s.reps[j];
      s' := FollowAll(cfg, s1, who - {i}, v, e);
      OnlyTwice(s, s1, s', {i}, who - {i});
      assert {i} + (who - {i}) == who;
    }
  }

  /** It takes the log the primary sent it, enters the view and acknowledges it. */
  lemma CatchesUp(cfg: Config, s: System, i: nat, v: nat, e: LogEntry) returns (s': System)
    requires Live(cfg, s) && i < cfg.n && i < |s.reps| && Lags(cfg, s.reps[i], v) && cfg.Primary(v) != i
    requires s.reps[i].catchingUp.Some? && NewState(cfg.Primary(v), i, v, 0, [e], 0) in s.h.msgs
    ensures Live(cfg, s') && Only(s, s', {i}) && Sits(cfg, s'.reps[i], v, v, [e], 0) && PrepareOk(v, 1, i) in s'.h.msgs
    ensures s'.reps[i].changed.None? && s'.reps[i].durable == 1
  {
    hide OnNewState;
    var s1 := Do(cfg, s, i, Receive(NewState(cfg.Primary(v), i, v, 0, [e], 0)));
    CaughtUp(cfg, i, s.reps[i], v, e);
    s' := Writes(cfg, s1, i);
    hide Live;
    OnlyTwice(s, s1, s', {i}, {i});
    assert {i} + {i} == {i};
  }

  lemma CaughtUp(cfg: Config, i: nat, r: Replica, v: nat, e: LogEntry)
    requires Lags(cfg, r, v) && cfg.Primary(v) != i && r.catchingUp.Some?
    ensures var r' := OnNewState(cfg, i, r, v, 0, [e], 0); Sits(cfg, r', v, v, [e], 0) && PrepareOk(v, 1, i) in r'.outbox
  {
    assert r.log[..0] + Drop([e], 0) == [e];
  }

  /** It commits what it is told to. */
  lemma IsTold(cfg: Config, s: System, i: nat, v: nat, e: LogEntry) returns (s': System)
    requires Live(cfg, s) && i < cfg.n && i < |s.reps| && Sits(cfg, s.reps[i], v, v, [e], 0) && cfg.Primary(v) != i
    requires Commit(v, 1) in s.h.msgs
    ensures Live(cfg, s') && Only(s, s', {i}) && s'.reps[i].commit == 1 && s'.reps[i].log == [e]
  {
    s' := Do(cfg, s, i, Receive(Commit(v, 1)));
    hide Live;
    CommitFrame(cfg, i, s.reps[i], 1);
  }

  lemma CommitFrame(cfg: Config, i: nat, r: Replica, c: nat)
    requires c > r.commit && r.q.queries == []
    ensures var r' := CommitUpTo(cfg, i, r, c); r'.commit == c && r'.log == r.log
  {
  }

  /** It learns that a view has started, and asks its primary for the log. */
  lemma Asks(cfg: Config, s: System, i: nat, v: nat, c: nat) returns (s': System)
    requires Live(cfg, s) && i < cfg.n && i < |s.reps| && cfg.Primary(v) != i && Commit(v, c) in s.h.msgs
    requires var r := s.reps[i]; Lags(cfg, r, r.view) && r.catchingUp.None? && r.view <= v
    ensures Live(cfg, s') && Only(s, s', {i}) && Lags(cfg, s'.reps[i], v) && s'.reps[i].catchingUp == Some(cfg.Primary(v))
    ensures Electing.Keeps(s.reps[i], s'.reps[i]) && s'.reps[i].log == s.reps[i].log && s'.reps[i].lastNormal == s.reps[i].lastNormal
    ensures GetState(i, cfg.Primary(v), v, 0) in s'.h.msgs
  {
    var s1 := Do(cfg, s, i, Receive(Commit(v, c)));
    var m := GetState(i, cfg.Primary(v), v, 0);
    assert m in s1.reps[i].early;
    s' := Drains(cfg, s1, i, {m});
    hide Live;
    OnlyTwice(s, s1, s', {i}, {i});
    assert {i} + {i} == {i};
  }
}
