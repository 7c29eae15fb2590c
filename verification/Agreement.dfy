/** What the cluster promises, in every state of every run. */
module Agreement {
  import opened Types
  import opened Quorums
  import opened Protocol
  import opened Cluster
  import opened Invariant
  import opened Growth
  import opened Safety
  import opened Steps
  import opened Entering
  import opened Handlers
  import opened Reads
  import opened Starting
  import opened Writing
  import opened Landing
  import opened Running

  /** Replica `i` in state `k` of the run. */
  function At(run: seq<System>, k: nat, i: nat): Replica
    requires k < |run| && i < |run[k].reps|
  {
    run[k].reps[i]
  }

  ghost predicate InRun(cfg: Config, run: seq<System>, k: nat, i: nat) {
    cfg.Sound() && IsRun(cfg, run) && k < |run| && i < cfg.n
  }

  lemma StateOk(cfg: Config, run: seq<System>, k: nat, i: nat)
    requires InRun(cfg, run, k, i)
    ensures i < |run[k].reps| && HistoryOk(run[k].h) && RepOk(run[k].h, i, At(run, k, i)) && run[k].h.cfg == cfg
  {
    hide HistoryOk, RepOk, IsRun;
    RunOk(cfg, run, k, k);
    RepPart(run[k], i);
  }

  // ---------------------------------------------------------------------------
  // Agreement

  /** What any replica has committed is the start of one log, which only ever grows. */
  lemma CommittedIsCompleted(cfg: Config, run: seq<System>, k: nat, i: nat, l: nat)
    requires InRun(cfg, run, k, i) && k <= l < |run|
    ensures i < |run[k].reps| && At(run, k, i).commit <= |At(run, k, i).log|
    ensures At(run, k, i).log[..At(run, k, i).commit] <= run[k].h.completed <= run[l].h.completed
  {
    StateOk(cfg, run, k, i);
    var h, r := run[k].h, At(run, k, i);
    RepFacts(h, i, r);
    ImageCompleted(h, i, Snapshot(r)) by { hide RepOk; }
    CommitBound(h, i, r);
    RunOk(cfg, run, k, l) by { hide RepOk, Inv; }
  }

  lemma CommitBound(h: History, i: nat, r: Replica)
    requires RepOk(h, i, r)
    ensures r.commit <= |h.completed|
  {
  }

  /** Agreement: two replicas that have both committed op k + 1, each at any time of the run, hold
      the same entry at it, whatever was lost, repeated, reordered or crashed in between. */
  lemma Agreement(cfg: Config, run: seq<System>, a: nat, i: nat, b: nat, j: nat, k: nat)
    requires InRun(cfg, run, a, i) && InRun(cfg, run, b, j)
    requires i < |run[a].reps| && j < |run[b].reps| && k < At(run, a, i).commit && k < At(run, b, j).commit
    ensures k < |At(run, a, i).log| && k < |At(run, b, j).log| && At(run, a, i).log[k] == At(run, b, j).log[k]
  {
    hide IsRun;
    var last := if a <= b then b else a;
    CommittedIsCompleted(cfg, run, a, i, last);
    CommittedIsCompleted(cfg, run, b, j, last);
    var r, s, all := At(run, a, i), At(run, b, j), run[last].h.completed;
    assert r.log[..r.commit] <= all && s.log[..s.commit] <= all;
    assert r.log[k] == r.log[..r.commit][k] == all[k];
    assert s.log[k] == s.log[..s.commit][k] == all[k];
  }

  /** None of the code's assertions on logs and commit numbers fails. */
  lemma AssertionsHold(cfg: Config, run: seq<System>, k: nat, i: nat)
    requires InRun(cfg, run, k, i)
    ensures i < |run[k].reps| && !At(run, k, i).failed
  {
    StateOk(cfg, run, k, i);
  }

  /** Any two state machines, each at any time of the run, went through the same ops. */
  lemma StatesAgree(cfg: Config, run: seq<System>, a: nat, i: nat, b: nat, j: nat)
    requires InRun(cfg, run, a, i) && InRun(cfg, run, b, j)
    ensures i < |run[a].reps| && j < |run[b].reps|
    ensures At(run, a, i).sm <= At(run, b, j).sm || At(run, b, j).sm <= At(run, a, i).sm
    ensures |At(run, a, i).sm| <= At(run, a, i).commit
  {
    hide IsRun, HistoryOk, RepOk;
    StateOk(cfg, run, a, i);
    StateOk(cfg, run, b, j);
    StateCompleted(run[a].h, i, At(run, a, i));
    StateCompleted(run[b].h, j, At(run, b, j));
    RepFacts(run[a].h, i, At(run, a, i));
    var last := if a <= b then b else a;
    RunOk(cfg, run, a, last) by { hide Inv; }
    RunOk(cfg, run, b, last) by { hide Inv; }
    var all := run[last].h.completed;
    assert At(run, a, i).sm <= all && At(run, b, j).sm <= all;
  }

  // ---------------------------------------------------------------------------
  // View changes

  /** A view change loses nothing: the log chosen among the reports of a quorum ranks highest, holds
      every op a quorum acknowledged in an earlier view, and unless a later view had chosen something by
      then, and a replica strayed, no reported commit number passes its end. */
  lemma ViewChangeLosesNothing(cfg: Config, run: seq<System>, k: nat, w: nat)
    requires cfg.Sound() && IsRun(cfg, run) && k < |run| && w in run[k].h.views && w > 0
    ensures var o := run[k].h.views[w].origin;
            && cfg.IsQuorum(o.reports.Keys) && o.best in o.reports
            && forall j :: j in o.reports ==>
                 Ranks(o.reports[o.best], o.reports[j]) && (InTime(run[k].h, w) ==> o.reports[j].commit <= |o.reports[o.best].log|)
    ensures forall v: nat, n: nat :: v < w && Chosen(run[k].h, v, n) ==> Survives(run[k].h, v, n, w)
  {
    RunOk(cfg, run, k, k) by { hide Inv; }
    var h := run[k].h;
    hide Inv, IsRun, Chosen, HistoryOk, OriginLog, InTime;
    HistoryPart(run[k]);
    HistoryParts(h);
    OriginParts(h, w);
    var o := h.views[w].origin;
    forall j | j in o.reports
      ensures Ranks(o.reports[o.best], o.reports[j])
      ensures InTime(h, w) ==> o.reports[j].commit <= |o.reports[o.best].log|
    {
      assert ReportedBy(h, w, Born(h, w), j, o.reports[j], o.reports[o.best]);
      if InTime(h, w) && o.reports[j].commit > 0 {
        var u := SettledEarlier(h, w, o.reports[j].log, o.reports[j].commit);
        BestHolds(h, u, o.reports[j].commit, w, o.reports[j].commit - 1);
      }
    }
    forall v: nat, n: nat | v < w && Chosen(h, v, n)
      ensures Survives(h, v, n, w)
    {
      SurvivesChange(h, v, n, w);
    }
  }

  lemma HistoryParts(h: History)
    requires HistoryOk(h)
    ensures ViewsOk(h) && ReportsKeep(h) && CompletedOk(h)
  {
  }

  /** The ops up to `n` of view `v` are in the log view `w` chose, and in the log it started with. */
  ghost predicate Survives(h: History, v: nat, n: nat, w: nat) {
    && v in h.views && w in h.views && n <= |h.views[v].log|
    && h.views[w].origin.best in h.views[w].origin.reports
    && h.views[v].log[..n] <= h.views[w].origin.reports[h.views[w].origin.best].log
    && h.views[v].log[..n] <= h.views[w].init
  }

  lemma SurvivesChange(h: History, v: nat, n: nat, w: nat)
    requires HistoryOk(h) && v < w && w in h.views && Chosen(h, v, n)
    ensures Survives(h, v, n, w)
  {
    hide MsgsOk, ReportsKeep, CompletedOk, ConfirmsOk, ReachedOk;
    OriginParts(h, w);
    hide ViewsOk, OriginReports, OriginLog;
    var best := h.views[w].origin.reports[h.views[w].origin.best];
    ChosenKept(h, v, n, w);
    forall x | 0 <= x < n
      ensures x < |best.log| && best.log[x] == h.views[v].log[x]
    {
      BestHolds(h, v, n, w, x);
    }
    if n > 0 {
      BestHolds(h, v, n, w, n - 1);
    }
  }

  lemma HistoryPart(s: System)
    requires Inv(s)
    ensures HistoryOk(s.h)
  {
  }

  // ---------------------------------------------------------------------------
  // What disks hold

  /** Every executed op is in the state machine's flush, or on disk with and without the write that is
      out, as memory holds it. */
  lemma ExecutedIsDurable(cfg: Config, run: seq<System>, k: nat, i: nat, op: nat)
    requires InRun(cfg, run, k, i) && i < |run[k].reps| && op < |At(run, k, i).sm|
    ensures var r := At(run, k, i);
            && op < |r.log| && r.sm[op] == r.log[op]
            && ((op < |r.flushed| && r.flushed[op] == r.sm[op])
                || (&& op < |r.disk.log| && r.disk.log[op] == r.sm[op]
                    && (r.out.Some? ==> op < |r.out.value.log| && r.out.value.log[op] == r.sm[op])))
  {
    StateOk(cfg, run, k, i);
  }

  /** A disk that keeps what its replica acknowledged in view `v` holds what was chosen there. */
  lemma DiskHolds(h: History, i: nat, a: Image, v: nat)
    requires ViewsOk(h) && ReportsKeep(h) && Chosen(h, v, |h.completed|) && h.completed <= h.views[v].log && ImageOk(h, i, a)
    requires Keeps(a.lastNormal, a.log, v, |h.completed|)
    ensures h.completed <= a.log
  {
    var view, n := h.views[a.lastNormal], |h.completed|;
    if a.lastNormal > v {
      ChosenKept(h, v, n, a.lastNormal);
      ViewInit(h, a.lastNormal);
    }
    hide ViewsOk, ReportsKeep, Chosen;
    forall x | 0 <= x < n
      ensures x < |a.log| && a.log[x] == h.completed[x]
    {
      if x >= a.commit {
        assert a.log[x] == view.log[x];
      }
    }
  }

  lemma AckIsKept(h: History, j: nat, r: Replica, v: nat, n: nat)
    requires RepOk(h, j, r) && Acked(h, v, n, j)
    ensures ImageOk(h, j, r.disk) && Keeps(r.disk.lastNormal, r.disk.log, v, n)
  {
    hide EarlyOk, BoxesOk, ReportsOk, RecordedOk, WritesOk, ExecutedOk, ExecutionOk, AnswersOk, LeaderOk, ImageOk;
    var m: nat :| m >= n && PrepareOk(v, m, j) in h.msgs;
  }

  ghost predicate DisksHold(s: System, q: set<nat>, log: Log) {
    forall j {:trigger j in q} :: j in q ==> j < |s.reps| && log <= s.reps[j].disk.log
  }

  /** Everything committed is on the disks of a quorum, and so met by every later quorum. */
  lemma CommittedIsDurable(cfg: Config, run: seq<System>, k: nat) returns (q: set<nat>)
    requires cfg.Sound() && IsRun(cfg, run) && k < |run|
    ensures run[k].h.completed != [] ==> cfg.IsQuorum(q) && DisksHold(run[k], q, run[k].h.completed)
  {
    q := {};
    var s := run[k];
    var h := s.h;
    RunOk(cfg, run, k, k) by { hide Inv; }
    if h.completed != [] {
      hide RepOk, IsRun;
      var u: nat :| Chosen(h, u, |h.completed|) && h.completed <= h.views[u].log;
      q :| AckQuorum(h, u, |h.completed|, q);
      forall j | j in q
        ensures j < |s.reps| && h.completed <= s.reps[j].disk.log
      {
        RepPart(s, j);
        AckIsKept(h, j, s.reps[j], u, |h.completed|);
        DiskHolds(h, j, s.reps[j].disk, u);
      }
    }
  }

  /** The disk backs a message that leaves: what it says is on disk, or superseded by a later view
      that is.  `mem` is what the replica holds in memory; of what it has committed the disk may hold
      another view's entries while the state machine holds the ops. */
  ghost predicate Backed(disk: Image, mem: Image, m: Message) {
    match m
    case PrepareOk(v, op, _) =>
      disk.lastNormal > v ||
      (disk.lastNormal == v && op <= |disk.log| && (mem.lastNormal > v || Same(disk.log, mem.log, mem.commit, op)))
    case StartViewChange(v, _) => disk.view >= v
    case DoViewChange(v, _, d) =>
      disk.view >= v && (disk.lastNormal >= v || (disk.lastNormal == d.lastNormal && d.log <= disk.log))
    case StartView(v, log, _) =>
      disk.view >= v && (disk.lastNormal > v || (disk.lastNormal == v && log <= disk.log))
    case _ => true
  }

  /** What of replica `i` stands behind the messages that wait for the write out. */
  ghost predicate Stands(h: History, i: nat, out: Image, mem: Image, waiting: set<Message>) {
    && KeepsAcks(waiting, i, out) && KeepsAcks(waiting, i, mem)
    && ReportsUpTo(waiting, i, out.view)
    && ImageOk(h, i, out) && ImageOk(h, i, mem)
    && out.lastNormal <= mem.lastNormal && out.commit <= mem.commit
    && BoxOk(h, i, waiting, out.lastNormal, out.log)
  }

  lemma OutStands(h: History, i: nat, r: Replica)
    requires RepOk(h, i, r) && r.out.Some?
    ensures Stands(h, i, r.out.value, Snapshot(r), r.waiting)
  {
    hide StatusOk, LeadsOk, CatchingUpOk, EarlyOk, RecordedOk, AckedOk, WritesOk, ExecutedOk, ExecutionOk, AnswersOk, LeaderOk,
      ImageOk, BoxOk, ReportsKeepAcks, OwnReportsKeep;
  }

  lemma WaitingBacked(h: History, i: nat, r: Replica, disk: Image, m: Message)
    requires RepOk(h, i, r) && MayLand(r, disk) && m in r.waiting
    ensures Backed(disk, Snapshot(r), m)
  {
    OutStands(h, i, r);
    hide RepOk, Certain;
    assert MsgOk(h, i, m);
    match m
    case PrepareOk(v, op, j) => AckBacked(h, i, r.out.value, Snapshot(r), r.waiting, v, op);
    case StartViewChange(v, j) => assert StartViewChange(v, i) in r.waiting;
    case DoViewChange(v, j, d) => assert DoViewChange(v, i, d) in r.waiting;
    case StartView(v, log, c) =>
  }

  lemma AckBacked(h: History, i: nat, out: Image, mem: Image, waiting: set<Message>, v: nat, op: nat)
    requires Stands(h, i, out, mem, waiting) && PrepareOk(v, op, i) in waiting
    ensures Backed(out, mem, PrepareOk(v, op, i))
  {
    hide BoxOk, ReportsUpTo, Certain;
    assert Keeps(out.lastNormal, out.log, v, op) && Keeps(mem.lastNormal, mem.log, v, op);
    hide KeepsAcks;
    if out.lastNormal == v == mem.lastNormal {
      forall x | mem.commit <= x < op
        ensures out.log[x] == mem.log[x]
      {
        assert out.log[x] == h.views[v].log[x] == mem.log[x];
      }
    }
  }

  /** The durable promise: as a write lands, every message that leaves with it is backed by the disk,
      whatever the replica went through while the write was out. */
  lemma DurablePromise(cfg: Config, run: seq<System>, k: nat, i: nat, skip: bool, m: Message)
    requires InRun(cfg, run, k, i) && Enabled(run[k], Land(i, skip)) && m in run[k].reps[i].waiting
    ensures var s' := Step(run[k], Land(i, skip));
            m in s'.h.msgs && Backed(s'.reps[i].disk, Snapshot(s'.reps[i]), m)
  {
    StateOk(cfg, run, k, i);
    hide RepOk, HistoryOk, IsRun, Persisted, Backed, Establish, Complete, OwnAck, Raise;
    LandBacks(run[k].h, i, At(run, k, i), skip, m);
  }

  lemma LandBacks(h: History, i: nat, r: Replica, skip: bool, m: Message)
    requires RepOk(h, i, r) && r.out.Some? && MayLand(r, LandedDisk(r, skip)) && m in r.waiting
    ensures var r' := Persisted(h.cfg, i, r, skip); Backed(r'.disk, Snapshot(r'), m)
  {
    WaitingBacked(h, i, r, LandedDisk(r, skip), m);
    hide RepOk, Persisted;
    LandedMemory(h, i, r, skip);
  }

  /** Landing a write leaves the log and the views in memory. */
  lemma LandedMemory(h: History, i: nat, r: Replica, skip: bool)
    requires r.out.Some?
    ensures SameLog(LandedReplica(r, LandedDisk(r, skip)), Persisted(h.cfg, i, r, skip))
  {
    hide ApplyCommitted, RegisterAck;
    var r1 := LandedReplica(r, LandedDisk(r, skip));
    AckFrame(h.cfg, i, r1, i, DurableOp(r1));
    ApplyFrame(h.cfg, i, r1, DurableOp(r1));
    ApplyFrame(h.cfg, i, RegisterAck(h.cfg, i, r1, i, DurableOp(r1)), DurableOp(r1));
  }

  ghost predicate SameLog(r: Replica, r': Replica) {
    r'.view == r.view && r'.lastNormal == r.lastNormal && r'.log == r.log && r'.disk == r.disk && r'.commit >= r.commit
  }

  lemma ApplyFrame(cfg: Config, i: nat, r: Replica, op: int)
    ensures SameLog(r, ApplyCommitted(cfg, i, r, op))
  {
    ExecuteQueriesFrame(cfg, i, Execute(r, Min(r.commit, op)));
  }

  lemma AckFrame(cfg: Config, i: nat, r: Replica, from: nat, op: int)
    ensures SameLog(r, RegisterAck(cfg, i, r, from, op))
  {
    hide ApplyCommitted, QuorumMark;
    var op' := Min(op, |r.log|);
    if from < |r.acked| && op' > r.acked[from] {
      var r1 := r.(acked := r.acked[from := op']);
      var c := QuorumMark(cfg, r1.acked, |r1.acked|);
      ApplyFrame(cfg, i, r1.(commit := c), DurableOp(r1));
    }
  }
}
