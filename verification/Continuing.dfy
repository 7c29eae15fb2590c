/** Runs that go on: what a replica can be made to do from any state that a run has come to, with nothing
    known of it but the invariant. */
module Continuing {
  import opened Types
  import opened Quorums
  import opened Protocol
  import opened Cluster
  import opened Invariant
  import opened Steps
  import opened Running
  import opened Runs
  import opened Answering

  // ---------------------------------------------------------------------------
  // Going on

  /** Every replica is normal in view `v`. */
  ghost predicate AllIn(s: System, v: nat) {
    forall j {:trigger s.reps[j]} :: 0 <= j < |s.reps| ==> s.reps[j].status == Normal && s.reps[j].view == v
  }

  /** The run goes on as `run'`, which ends in `s`, and on the way no replica leaves view `calm` or catches up, if there is one. */
  ghost predicate GoesBy(cfg: Config, run: seq<System>, calm: Option<nat>, s: System, run': seq<System>) {
    && run != [] && run <= run' && Ends(cfg, run', s)
    && (calm.Some? ==> forall k {:trigger run'[k]} :: |run| - 1 <= k < |run'| ==> AllIn(run'[k], calm.value))
  }

  ghost predicate Goes(cfg: Config, run: seq<System>, calm: Option<nat>, s: System) {
    exists run' :: GoesBy(cfg, run, calm, s, run')
  }

  lemma GoesOk(cfg: Config, run: seq<System>, calm: Option<nat>, s: System)
    requires cfg.Sound() && Goes(cfg, run, calm, s)
    ensures Inv(s) && s.h.cfg == cfg && |s.reps| == cfg.n
  {
    hide Inv, IsRun;
    var run' :| GoesBy(cfg, run, calm, s, run');
    RunOk(cfg, run', |run'| - 1, |run'| - 1);
    InvSize(s);
  }

  lemma InvSize(s: System)
    requires Inv(s)
    ensures |s.reps| == s.h.cfg.n
  {
  }

  /** The invariant, at one replica. */
  lemma RepHolds(cfg: Config, run: seq<System>, calm: Option<nat>, s: System, i: nat)
    requires cfg.Sound() && Goes(cfg, run, calm, s) && i < cfg.n
    ensures |s.reps| == cfg.n && s.h.cfg == cfg && HistoryOk(s.h) && RepOk(s.h, i, s.reps[i])
  {
    hide Inv, HistoryOk, RepOk;
    GoesOk(cfg, run, calm, s);
    RepPart(s, i);
  }

  lemma Next(cfg: Config, run: seq<System>, calm: Option<nat>, s: System, e: Event)
    requires Goes(cfg, run, calm, s) && s.h.cfg == cfg && |s.reps| == cfg.n && Enabled(s, e)
    requires calm.Some? ==> AllIn(Step(s, e), calm.value)
    ensures Goes(cfg, run, calm, Step(s, e)) && Step(s, e).h.cfg == cfg && Only(s, Step(s, e), {e.i})
  {
    hide Step, Enabled, IsRun, Only, AllIn;
    var run' :| GoesBy(cfg, run, calm, s, run');
    Extend(cfg, run', s, e);
    StepFrame(s, e);
    assert GoesBy(cfg, run, calm, Step(s, e), run' + [Step(s, e)]);
  }

  // ---------------------------------------------------------------------------
  // What executing and committing change

  /** All but what is executed, and what that answers. */
  ghost predicate OnlyRuns(r: Replica, r': Replica) {
    && r' == r.(sm := r'.sm, failed := r'.failed, q := r.q.(queries := r'.q.queries), answers := r'.answers)
    && (r.q.queries == [] ==> r'.q.queries == [])
  }

  lemma ApplyRuns(cfg: Config, i: nat, r: Replica, op: int)
    ensures OnlyRuns(r, ApplyCommitted(cfg, i, r, op))
    ensures Min(r.commit, op) <= |r.log| ==> |ApplyCommitted(cfg, i, r, op).sm| == Max(|r.sm|, Min(r.commit, op))
  {
    var r1 := Execute(r, Min(r.commit, op));
    assert r1.q.queries == [] ==> ExecuteQueries(cfg, i, r1) == r1;
    hide ExecuteQueries;
    ExecuteFrame(cfg, i, r1);
  }

  lemma CommitRuns(cfg: Config, i: nat, r: Replica, c: nat)
    ensures var r' := CommitUpTo(cfg, i, r, c);
            && OnlyRuns(r.(commit := Max(r.commit, c)), r')
            && (r.commit < c <= |r.log| ==> |r'.sm| == Max(|r.sm|, Min(c, DurableOp(r))))
            && (c <= r.commit ==> r' == r)
  {
    hide ApplyCommitted;
    ApplyRuns(cfg, i, r.(commit := c), DurableOp(r));
  }

  /** What a quorum's acknowledgements reach is committed. */
  ghost predicate Counted(cfg: Config, r: Replica) { QuorumMark(cfg, r.acked, |r.acked|) <= r.commit }

  /** The acknowledgements once replica `from` acknowledged up to `op`. */
  function WithAck(acked: seq<nat>, from: nat, op: int): seq<nat> {
    if from < |acked| && op > acked[from] then acked[from := op] else acked
  }

  lemma AckRuns(cfg: Config, i: nat, r: Replica, from: nat, op: int)
    ensures var r' := RegisterAck(cfg, i, r, from, op);
            && OnlyRuns(r.(acked := WithAck(r.acked, from, Min(op, |r.log|)), commit := r'.commit), r')
            && r.commit <= r'.commit && (Counted(cfg, r) ==> Counted(cfg, r'))
  {
    hide CommitUpTo, QuorumMark;
    var op' := Min(op, |r.log|);
    if from < |r.acked| && op' > r.acked[from] {
      var r1 := r.(acked := r.acked[from := op']);
      CommitRuns(cfg, i, r1, QuorumMark(cfg, r1.acked, |r1.acked|));
    }
  }

  /** The replica once the write that was out has landed, but for what that commits and runs. */
  function Landed(cfg: Config, i: nat, r: Replica): Replica
    requires r.out.Some?
  {
    var r1 := r.(out := None, disk := r.out.value, durable := |r.out.value.log|, waiting := {});
    if r.status == Normal && cfg.Primary(r.view) == i && r.out.value.lastNormal == r.view
    then r1.(acked := WithAck(r.acked, i, Min(DurableOp(r1), |r.log|))) else r1
  }

  lemma LandRuns(cfg: Config, i: nat, r: Replica)
    requires r.out.Some?
    ensures var r' := Persisted(cfg, i, r, false);
            && OnlyRuns(Landed(cfg, i, r).(commit := r'.commit), r') && r.commit <= r'.commit
            && (Counted(cfg, r) ==> Counted(cfg, r'))
            && (Min(r'.commit, DurableOp(r')) <= |r.log| ==> |r'.sm| >= Min(r'.commit, DurableOp(r')))
  {
    hide RegisterAck, ApplyCommitted, QuorumMark;
    var out := r.out.value;
    var r1 := r.(out := None, disk := out, durable := |out.log|, waiting := {});
    var acks := r1.status == Normal && cfg.Primary(r1.view) == i && out.lastNormal == r1.view;
    var r2 := if acks then RegisterAck(cfg, i, r1, i, DurableOp(r1)) else r1;
    AckRuns(cfg, i, r1, i, DurableOp(r1));
    ApplyRuns(cfg, i, r2, DurableOp(r1));
  }

  // ---------------------------------------------------------------------------
  // A write

  /** What a write that lands leaves as it was, but for ops that it commits. */
  ghost predicate Stays(r: Replica, r': Replica) {
    && r'.view == r.view && r'.status == r.status && r'.lastNormal == r.lastNormal && r'.log == r.log && r.commit <= r'.commit
    && r'.svcFrom == r.svcFrom && r'.dvcSent == r.dvcSent && r'.dvcFrom == r.dvcFrom && r'.catchingUp == r.catchingUp
    && r'.early == r.early && |r'.acked| == |r.acked| && (forall k :: 0 <= k < |r.acked| ==> r.acked[k] <= r'.acked[k])
    && r'.q == r.q.(queries := r'.q.queries) && (r.q.queries == [] ==> r'.q.queries == [])
  }

  /** The disk holds memory, and all that is committed executed. */
  ghost predicate AtRest(r: Replica) {
    && r.out.None? && r.changed.None? && r.outbox == {} && r.waiting == {}
    && r.durable == |r.log| && r.disk.view == r.view && r.disk.lastNormal == r.lastNormal
    && (r.commit <= |r.log| ==> |r.sm| >= r.commit)
  }

  lemma CalmNow(cfg: Config, run: seq<System>, calm: Option<nat>, s: System)
    requires Goes(cfg, run, calm, s) && calm.Some?
    ensures AllIn(s, calm.value)
  {
    hide IsRun, AllIn;
    var run' :| GoesBy(cfg, run, calm, s, run');
    assert AllIn(run'[|run'| - 1], calm.value);
  }

  lemma CalmStays(s: System, s': System, i: nat, v: nat)
    requires AllIn(s, v) && Only(s, s', {i}) && i < |s.reps| && s'.reps[i].status == Normal && s'.reps[i].view == v
    ensures AllIn(s', v)
  {
  }

  /** One event of replica `i` that does not take it out of the calm. */
  lemma Act1(cfg: Config, run: seq<System>, calm: Option<nat>, s: System, e: Event) returns (s': System)
    requires cfg.Sound() && Goes(cfg, run, calm, s) && e.i < cfg.n && Enabled(s, e)
    requires calm.Some? ==> Step(s, e).reps[e.i].status == Normal && Step(s, e).reps[e.i].view == calm.value
    ensures Goes(cfg, run, calm, s') && s' == Step(s, e) && Only(s, s', {e.i}) && |s'.reps| == cfg.n && s'.h.cfg == cfg
  {
    hide Inv, Step, Goes, AllIn, Only, Enabled;
    GoesOk(cfg, run, calm, s);
    s' := Step(s, e);
    StepFrame(s, e);
    if calm.Some? {
      CalmNow(cfg, run, calm, s);
      CalmStays(s, s', e.i, calm.value);
    }
    Next(cfg, run, calm, s, e);
    GoesOk(cfg, run, calm, s');
  }

  lemma CalmRep(cfg: Config, run: seq<System>, calm: Option<nat>, s: System, i: nat)
    requires cfg.Sound() && Goes(cfg, run, calm, s) && i < cfg.n
    ensures |s.reps| == cfg.n && s.h.cfg == cfg
    ensures calm.Some? ==> s.reps[i].status == Normal && s.reps[i].view == calm.value
  {
    hide Inv, Goes;
    GoesOk(cfg, run, calm, s);
    if calm.Some? {
      CalmNow(cfg, run, calm, s);
    }
  }

  /** The write that is out lands. */
  lemma LandsOne(cfg: Config, run: seq<System>, calm: Option<nat>, s: System, i: nat) returns (s': System)
    requires cfg.Sound() && Goes(cfg, run, calm, s) && i < cfg.n && i < |s.reps| && s.reps[i].out.Some?
    ensures Goes(cfg, run, calm, s') && Only(s, s', {i}) && s.reps[i].waiting <= s'.h.msgs
    ensures s'.reps[i] == Persisted(cfg, i, s.reps[i], false)
  {
    hide Goes, Persisted, Establish, Complete, OwnAck, Raise;
    CalmRep(cfg, run, calm, s, i);
    LandedIn(cfg, i, s.reps[i]);
    s' := Act1(cfg, run, calm, s, Land(i, false));
  }

  lemma LandedIn(cfg: Config, i: nat, r: Replica)
    requires r.out.Some?
    ensures Persisted(cfg, i, r, false).status == r.status && Persisted(cfg, i, r, false).view == r.view
  {
    hide Persisted, Counted;
    LandRuns(cfg, i, r);
  }

  lemma LandStays(cfg: Config, i: nat, r: Replica)
    requires r.out.Some?
    ensures var r' := Persisted(cfg, i, r, false);
            && Stays(r, r') && r'.out.None? && r'.outbox == r.outbox && r'.waiting == {} && r'.changed == r.changed
            && (Counted(cfg, r) ==> Counted(cfg, r'))
  {
    hide Persisted, Counted;
    LandRuns(cfg, i, r);
  }

  lemma TakesOne(cfg: Config, run: seq<System>, calm: Option<nat>, s: System, i: nat) returns (s': System)
    requires cfg.Sound() && Goes(cfg, run, calm, s) && i < cfg.n && i < |s.reps| && s.reps[i].out.None?
    ensures Goes(cfg, run, calm, s') && Only(s, s', {i}) && s'.reps[i] == TakeWrite(s.reps[i])
  {
    hide Goes;
    CalmRep(cfg, run, calm, s, i);
    s' := Act1(cfg, run, calm, s, Take(i));
  }

  /** A write of all there is lands: what waited for it has left, and what is committed has executed. */
  lemma WholeLands(cfg: Config, i: nat, r: Replica)
    requires r.out.None?
    ensures var r' := Persisted(cfg, i, TakeWrite(r), false);
            && Stays(r, r') && AtRest(r') && (Counted(cfg, r) ==> Counted(cfg, r'))
            && (r.status == Normal && cfg.Primary(r.view) == i && r.lastNormal == r.view && i < |r.acked| ==> r'.acked[i] >= |r.log|)
  {
    hide Persisted;
    LandRuns(cfg, i, TakeWrite(r));
    hide QuorumMark;
  }

  lemma Settles(cfg: Config, run: seq<System>, calm: Option<nat>, s: System, i: nat) returns (s': System)
    requires cfg.Sound() && Goes(cfg, run, calm, s) && i < cfg.n && i < |s.reps|
    ensures Goes(cfg, run, calm, s') && Only(s, s', {i}) && s.reps[i].outbox + s.reps[i].waiting <= s'.h.msgs
    ensures Stays(s.reps[i], s'.reps[i]) && AtRest(s'.reps[i])
    ensures Counted(cfg, s.reps[i]) ==> Counted(cfg, s'.reps[i])
    ensures var r := s.reps[i]; r.status == Normal && cfg.Primary(r.view) == i && r.lastNormal == r.view && i < |r.acked| ==>
              s'.reps[i].acked[i] >= |r.log|
  {
    hide Goes, Persisted, Counted, AtRest;
    var r := s.reps[i];
    var s1 := s;
    if r.out.Some? {
      s1 := LandsOne(cfg, run, calm, s, i);
      LandStays(cfg, i, r);
    } else {
      NoWaiting(cfg, run, calm, s, i);
    }
    var s2 := TakesOne(cfg, run, calm, s1, i);
    s' := LandsOne(cfg, run, calm, s2, i);
    WholeLands(cfg, i, s1.reps[i]);
  }

  lemma NoWaiting(cfg: Config, run: seq<System>, calm: Option<nat>, s: System, i: nat)
    requires cfg.Sound() && Goes(cfg, run, calm, s) && i < cfg.n && i < |s.reps| && s.reps[i].out.None?
    ensures s.reps[i].waiting == {}
  {
    hide Goes, HistoryOk;
    RepHolds(cfg, run, calm, s, i);
    WaitsForWrite(s.h, i, s.reps[i]);
  }

  lemma WaitsForWrite(h: History, i: nat, r: Replica)
    requires RepOk(h, i, r) && r.out.None?
    ensures r.waiting == {}
  {
  }

  /** A message leaves early, of a view that the disk has if it is the primary's. */
  lemma DrainsOne(cfg: Config, run: seq<System>, calm: Option<nat>, s: System, i: nat, m: Message) returns (s': System)
    requires cfg.Sound() && Goes(cfg, run, calm, s) && i < cfg.n && i < |s.reps| && m in s.reps[i].early
    requires FromPrimary(m) ==> m.view <= s.reps[i].disk.lastNormal
    ensures Goes(cfg, run, calm, s') && Only(s, s', {i}) && m in s'.h.msgs
    ensures s'.reps[i] == s.reps[i].(early := s.reps[i].early - {m}, q := s.reps[i].q.(unsent := false))
  {
    hide Goes;
    CalmRep(cfg, run, calm, s, i);
    s' := Act1(cfg, run, calm, s, Drain(i, {m}));
  }
}
