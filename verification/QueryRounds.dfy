/** The primary's rounds of view confirmations, in every run: how many are out, in what
    order queries wait for them, and that none that could be answered is held up. */
module QueryRounds {
  import opened Types
  import opened Quorums
  import opened Protocol
  import opened Cluster
  import opened Invariant
  import opened Steps
  import opened Handlers
  import opened Reads
  import opened Landing
  import opened Running
  import opened Agreement

  /** A query whose round a quorum confirmed and whose ops executed. */
  predicate Ready(q: Rounds, executed: nat, x: WaitingQuery) { x.round <= q.done && x.op <= executed }

  /** A query waits for a round that has not started. */
  ghost predicate Parked(q: Rounds) {
    exists k :: 0 <= k < |q.queries| && q.queries[k].round > q.round
  }

  ghost predicate InOrder(queries: seq<WaitingQuery>) {
    forall j, k :: 0 <= j < k < |queries| ==> queries[j].round <= queries[k].round && queries[j].op <= queries[k].op
  }

  /** At most `RoundsOut` rounds are unconfirmed, queries wait in the order of their rounds and of their
      ops, and one waits for a round not started only while all of them are out. */
  ghost predicate Shape(q: Rounds, commit: nat) {
    && q.done <= q.round <= q.done + RoundsOut
    && (forall j :: 0 <= j < |q.confirmed| ==> q.confirmed[j] <= q.round)
    && (forall k {:trigger q.queries[k]} :: 0 <= k < |q.queries| ==>
        q.queries[k].round <= q.round + 1 && q.queries[k].op <= Max(commit, q.viewStart))
    && InOrder(q.queries)
    && (Parked(q) ==> q.round == q.done + RoundsOut && !q.unsent)
  }

  ghost predicate NoneReady(q: Rounds, executed: nat) {
    forall k {:trigger q.queries[k]} :: 0 <= k < |q.queries| ==> !Ready(q, executed, q.queries[k])
  }

  predicate Leading(cfg: Config, i: nat, r: Replica) { cfg.Primary(r.view) == i && r.status == Normal }

  /** Only a primary has queries waiting. */
  ghost predicate Owned(cfg: Config, i: nat, r: Replica) {
    Shape(r.q, r.commit) && (r.q.queries != [] ==> Leading(cfg, i, r))
  }

  ghost predicate RoundsInv(cfg: Config, i: nat, r: Replica) {
    Owned(cfg, i, r) && NoneReady(r.q, |r.sm|)
  }

  /** The front holds up no query that is ready: if it is not, none is. */
  lemma FrontFirst(q: Rounds, executed: nat, k: nat)
    requires InOrder(q.queries) && k < |q.queries| && Ready(q, executed, q.queries[k])
    ensures Ready(q, executed, q.queries[0])
  {
    assert k > 0 ==> q.queries[0].round <= q.queries[k].round;
  }

  // ---------------------------------------------------------------------------
  // What leaves the rounds alone

  lemma SameQueries(cfg: Config, i: nat, r: Replica, r': Replica)
    requires RoundsInv(cfg, i, r) && r'.q == r.q && r'.commit == r.commit && r'.sm == r.sm
    requires r'.view == r.view && r'.status == r.status
    ensures RoundsInv(cfg, i, r')
  {
  }

  lemma NoQueries(cfg: Config, i: nat, r: Replica)
    requires r.q.queries == [] && r.q.round == r.q.done == 0 && forall j :: 0 <= j < |r.q.confirmed| ==> r.q.confirmed[j] == 0
    ensures RoundsInv(cfg, i, r)
  {
  }

  lemma PopShape(q: Rounds, commit: nat)
    requires Shape(q, commit) && q.queries != []
    ensures Shape(q.(queries := q.queries[1..]), commit)
  {
    var q' := q.(queries := q.queries[1..]);
    if k :| 0 <= k < |q'.queries| && q'.queries[k].round > q'.round {
      assert q.queries[k + 1].round > q.round;
    }
  }

  lemma {:induction false} ExecuteRounds(cfg: Config, i: nat, r: Replica)
    requires Owned(cfg, i, r)
    ensures RoundsInv(cfg, i, ExecuteQueries(cfg, i, r))
    decreases |r.q.queries|
  {
    hide Shape;
    if r.q.queries != [] {
      if Ready(r.q, |r.sm|, r.q.queries[0]) {
        PopShape(r.q, r.commit);
        ExecuteRounds(cfg, i, r.(q := r.q.(queries := r.q.queries[1..]),
                                 answers := r.answers + [Answer(r.q.queries[0].id, r.q.queries[0].floor, r.sm)]));
      } else {
        forall k | 0 <= k < |r.q.queries|
          ensures !Ready(r.q, |r.sm|, r.q.queries[k])
        {
          if Ready(r.q, |r.sm|, r.q.queries[k]) {
            OrderPart(r.q, r.commit);
            FrontFirst(r.q, |r.sm|, k);
          }
        }
      }
    }
  }

  lemma OrderPart(q: Rounds, commit: nat)
    requires Shape(q, commit)
    ensures InOrder(q.queries)
  {
  }

  lemma ApplyRounds(cfg: Config, i: nat, r: Replica, op: int)
    requires Owned(cfg, i, r)
    ensures RoundsInv(cfg, i, ApplyCommitted(cfg, i, r, op))
  {
    hide ExecuteQueries, Shape;
    ExecuteRounds(cfg, i, Execute(r, Min(r.commit, op)));
  }

  lemma CommitRounds(cfg: Config, i: nat, r: Replica, c: nat)
    requires RoundsInv(cfg, i, r)
    ensures RoundsInv(cfg, i, CommitUpTo(cfg, i, r, c))
  {
    hide ApplyCommitted;
    if c > r.commit {
      ApplyRounds(cfg, i, r.(commit := c), DurableOp(r));
    }
  }

  lemma AckRounds(cfg: Config, i: nat, r: Replica, from: nat, op: int)
    requires RoundsInv(cfg, i, r)
    ensures RoundsInv(cfg, i, RegisterAck(cfg, i, r, from, op))
  {
    hide CommitUpTo, QuorumMark, RoundsInv;
    var op' := Min(op, |r.log|);
    if from < |r.acked| && op' > r.acked[from] {
      var r1 := r.(acked := r.acked[from := op']);
      SameQueries(cfg, i, r, r1);
      CommitRounds(cfg, i, r1, QuorumMark(cfg, r1.acked, |r1.acked|));
    }
  }

  /** A replica that enters a view or leaves one starts its rounds over. */
  lemma ClearedRounds(cfg: Config, i: nat, r: Replica, r': Replica)
    requires r'.q == r.q.(viewStart := r'.q.viewStart, queries := [], round := 0, done := 0, confirmed := Zeros(|r.q.confirmed|), unsent := false)
    ensures RoundsInv(cfg, i, r')
  {
    NoQueries(cfg, i, r');
  }

  lemma EnterRounds(cfg: Config, i: nat, r: Replica)
    ensures RoundsInv(cfg, i, EnterNormal(r))
  {
    hide RoundsInv;
    ClearedRounds(cfg, i, r, EnterNormal(r));
  }

  lemma StartRounds(cfg: Config, i: nat, r: Replica)
    requires RoundsInv(cfg, i, r)
    ensures RoundsInv(cfg, i, TryStartView(cfg, i, r))
  {
    hide RoundsInv, Best, MaxCommit, EnterNormal, CommitUpTo, Merge;
    var best := Best(r.dvcFrom, cfg.n);
    if best.Some? {
      var r2 := CommitUpTo(cfg, i, Merge(r, 0, r.dvcFrom[best.value].log), MaxCommit(r.dvcFrom, cfg.n));
      EnterRounds(cfg, i, r2);
      SameQueries(cfg, i, EnterNormal(r2), TryStartView(cfg, i, r));
    }
  }

  lemma RecordRounds(cfg: Config, i: nat, r: Replica, from: nat, d: Report)
    requires RoundsInv(cfg, i, r)
    ensures RoundsInv(cfg, i, RecordReport(cfg, i, r, from, d))
  {
    hide RoundsInv, TryStartView;
    SameQueries(cfg, i, r, r.(dvcFrom := r.dvcFrom[from := d]));
    StartRounds(cfg, i, r.(dvcFrom := r.dvcFrom[from := d]));
  }

  lemma ReportRounds(cfg: Config, i: nat, r: Replica)
    requires RoundsInv(cfg, i, r)
    ensures RoundsInv(cfg, i, SendReport(cfg, i, r))
  {
    hide RoundsInv, RecordReport;
    RecordRounds(cfg, i, r, i, ReportOf(r));
    if cfg.Primary(r.view) != i {
      SameQueries(cfg, i, r, SendReport(cfg, i, r));
    }
  }

  // ---------------------------------------------------------------------------
  // Queries and confirmations

  lemma StartRoundShape(i: nat, r: Replica)
    requires Shape(r.q, r.commit) && r.q.round < r.q.done + RoundsOut
    ensures var r' := StartRound(i, r);
            && Shape(r'.q, r'.commit) && r'.q.queries == r.q.queries && r'.q.done == r.q.done && r'.q.round == r.q.round + 1 && !Parked(r'.q)
            && r'.commit == r.commit && r'.sm == r.sm && r'.view == r.view && r'.status == r.status && r'.q.viewStart == r.q.viewStart
  {
  }

  lemma PushShape(q: Rounds, commit: nat, x: WaitingQuery)
    requires Shape(q, commit) && x.op == Max(commit, q.viewStart)
    requires if x.round == q.round then !Parked(q) else x.round == q.round + 1 && q.round == q.done + RoundsOut && !q.unsent
    ensures Shape(q.(queries := q.queries + [x]), commit)
  {
    var q' := q.(queries := q.queries + [x]);
    forall k | 0 <= k < |q.queries|
      ensures q.queries[k].round <= x.round
    {
      if x.round == q.round && q.queries[k].round > q.round {
        assert Parked(q);
      }
    }
    if Parked(q') {
      var k :| 0 <= k < |q'.queries| && q'.queries[k].round > q'.round;
      if k < |q.queries| {
        assert q.queries[k].round > q.round;
      }
    }
  }

  lemma PushReady(q: Rounds, executed: nat, x: WaitingQuery)
    requires NoneReady(q, executed) && x.round > q.done
    ensures NoneReady(q.(queries := q.queries + [x]), executed)
  {
  }

  /** A round that has yet to leave is not confirmed: a quorum is more than the primary itself. */
  lemma UnsentOpen(h: History, i: nat, r: Replica)
    requires HistoryOk(h) && RepOk(h, i, r) && Leading(h.cfg, i, r) && r.q.unsent
    ensures r.q.done < r.q.round
  {
    LeaderParts(h, i, r);
    ValidPart(h);
    assert ConfirmsOk(h);
    hide RepOk, HistoryOk;
    if r.q.done > 0 {
      var all := Reaching(r.q.confirmed, r.q.done);
      assert h.cfg.IsQuorum(all);
      SomeOther(all, i);
      var j :| j in all && j != i;
      assert ConfirmViewOk(r.view, r.q.confirmed[j], j) in h.confirms;
    }
  }

  lemma SomeOther(all: set<nat>, i: nat)
    requires |all| >= 2
    ensures exists j :: j in all && j != i
  {
    if forall j :: j in all ==> j == i {
      SubsetCount(all, {i});
      assert false;
    }
  }

  /** The replica once the round a new query waits for is started, if it is, and that round. */
  function Joined(i: nat, r: Replica): (Replica, nat) {
    var room := r.q.round - r.q.done < RoundsOut;
    var r1 := if !r.q.unsent && room then StartRound(i, r) else r;
    (r1, if r.q.unsent || room then r1.q.round else r1.q.round + 1)
  }

  lemma JoinedOk(i: nat, r: Replica)
    requires Shape(r.q, r.commit) && (r.q.unsent ==> r.q.done < r.q.round)
    ensures var r1, round := Joined(i, r).0, Joined(i, r).1;
            && Shape(r1.q, r1.commit) && round > r1.q.done && r1.q.queries == r.q.queries && r1.q.done == r.q.done
            && (if round == r1.q.round then !Parked(r1.q) else round == r1.q.round + 1 && r1.q.round == r1.q.done + RoundsOut && !r1.q.unsent)
            && r1.commit == r.commit && r1.sm == r.sm && r1.view == r.view && r1.status == r.status && r1.q.viewStart == r.q.viewStart
  {
    if !r.q.unsent && r.q.round - r.q.done < RoundsOut {
      StartRoundShape(i, r);
    }
  }

  lemma OnQueryRounds(h: History, i: nat, r: Replica, id: nat, floor: Log, moved: set<nat>)
    requires HistoryOk(h) && RepOk(h, i, r) && RoundsInv(h.cfg, i, r)
    ensures RoundsInv(h.cfg, i, OnQuery(h.cfg, i, r, id, floor, moved))
  {
    hide HistoryOk, RepOk, Shape, Parked, NoneReady, StartRound;
    if Leading(h.cfg, i, r) && !(exists q :: q in r.q.queries && q.id == id) {
      if r.q.unsent {
        UnsentOpen(h, i, r);
      }
      JoinedOk(i, r);
      var r1, round := Joined(i, r).0, Joined(i, r).1;
      var x := WaitingQuery(id, Max(r1.commit, r1.q.viewStart), round, floor, moved);
      SameReady(r.q, r1.q, |r.sm|);
      PushShape(r1.q, r1.commit, x);
      PushReady(r1.q, |r1.sm|, x);
    }
  }

  lemma SameReady(q: Rounds, q': Rounds, executed: nat)
    requires NoneReady(q, executed) && q'.queries == q.queries && q'.done == q.done
    ensures NoneReady(q', executed)
  {
  }

  lemma LaterDone(q: Rounds, commit: nat, done: nat)
    requires Shape(q, commit) && q.done < done <= q.round
    ensures var q' := q.(done := done);
            && q'.round < q'.done + RoundsOut
            && (forall j :: 0 <= j < |q'.confirmed| ==> q'.confirmed[j] <= q'.round)
            && (!Parked(q') ==> Shape(q', commit))
  {
    assert Parked(q.(done := done)) <==> Parked(q) by {
      if k :| 0 <= k < |q.queries| && q.queries[k].round > q.round {
        assert q.(done := done).queries[k].round > q.round;
      }
    }
  }

  /** With the last parked query's round started, none is parked. */
  lemma StartParked(i: nat, q: Rounds, commit: nat, done: nat, r: Replica)
    requires Shape(q, commit) && q.done < done <= q.round && r.q == q.(done := done) && r.commit == commit && Parked(q)
    ensures Shape(StartRound(i, r).q, commit) && q.queries[|q.queries| - 1].round > q.round
  {
    var k :| 0 <= k < |q.queries| && q.queries[k].round > q.round;
    assert k < |q.queries| - 1 ==> q.queries[k].round <= q.queries[|q.queries| - 1].round;
    var q' := StartRound(i, r).q;
    forall j | 0 <= j < |q'.queries|
      ensures q'.queries[j].round <= q'.round
    {
      assert q.queries[j].round <= q.round + 1;
    }
  }

  lemma DoneRounds(cfg: Config, i: nat, r: Replica, done: nat)
    requires RoundsInv(cfg, i, r) && Leading(cfg, i, r) && r.q.done < done <= r.q.round
    ensures RoundsInv(cfg, i, RoundDone(cfg, i, r, done))
  {
    hide ExecuteQueries, NoneReady;
    var r1 := r.(q := r.q.(done := done));
    var last := |r1.q.queries| - 1;
    LaterDone(r.q, r.commit, done);
    if last >= 0 && r1.q.queries[last].round > r1.q.round {
      assert Parked(r.q);
      StartParked(i, r.q, r.commit, done, r1);
      ExecuteRounds(cfg, i, StartRound(i, r1));
    } else {
      assert !Parked(r1.q) by {
        assert forall k :: 0 <= k < last ==> r.q.queries[k].round <= r.q.queries[last].round;
      }
      ExecuteRounds(cfg, i, r1);
    }
  }

  lemma ConfirmRounds(cfg: Config, i: nat, r: Replica, v: nat, round: nat, from: nat)
    requires RoundsInv(cfg, i, r)
    ensures RoundsInv(cfg, i, OnConfirmViewOk(cfg, i, r, v, round, from))
  {
    if !(v != r.view || cfg.Primary(v) != i || r.status != Normal || from >= |r.q.confirmed|
         || round > r.q.round || round <= r.q.confirmed[from]) {
      var r1 := r.(q := r.q.(confirmed := r.q.confirmed[from := round]));
      CountedRounds(cfg, i, r, from, round);
      var done := QuorumMark(cfg, r1.q.confirmed, |r1.q.confirmed|);
      if done > r1.q.done {
        assert r1.q.confirmed[..|r1.q.confirmed|] == r1.q.confirmed;
        assert done in r1.q.confirmed;
        DoneRounds(cfg, i, r1, done);
      }
    }
  }

  lemma CountedRounds(cfg: Config, i: nat, r: Replica, from: nat, round: nat)
    requires RoundsInv(cfg, i, r) && from < |r.q.confirmed| && round <= r.q.round
    ensures RoundsInv(cfg, i, r.(q := r.q.(confirmed := r.q.confirmed[from := round])))
  {
    var q' := r.q.(confirmed := r.q.confirmed[from := round]);
    assert Parked(q') <==> Parked(r.q) by {
      if k :| 0 <= k < |r.q.queries| && r.q.queries[k].round > r.q.round {
        assert q'.queries[k].round > q'.round;
      }
    }
  }

  // ---------------------------------------------------------------------------
  // Handlers

  lemma LeaveRounds(cfg: Config, i: nat, r: Replica, v: nat)
    ensures RoundsInv(cfg, i, BeginViewChange(i, r, v))
  {
    hide RoundsInv;
    ClearedRounds(cfg, i, r, BeginViewChange(i, r, v));
  }

  lemma DeclineRounds(cfg: Config, i: nat, r: Replica, v: nat)
    requires RoundsInv(cfg, i, r)
    ensures RoundsInv(cfg, i, Decline(cfg, i, r, v))
  {
    hide RoundsInv;
    var r' := Decline(cfg, i, r, v);
    if r' != r {
      ClearedRounds(cfg, i, r, r');
    }
  }

  lemma TransferRounds(cfg: Config, i: nat, r: Replica, status: Status)
    requires RoundsInv(cfg, i, r) && cfg.Primary(r.view) != i
    ensures RoundsInv(cfg, i, r.(status := status))
  {
  }

  lemma PrepareRounds(cfg: Config, i: nat, r: Replica, v: nat, op: nat, e: LogEntry, c: nat)
    requires RoundsInv(cfg, i, r)
    ensures RoundsInv(cfg, i, OnPrepare(cfg, i, r, v, op, e, c))
  {
    hide RoundsInv, CommitUpTo, Decline;
    var r' := OnPrepare(cfg, i, r, v, op, e, c);
    if !Accepts(cfg, i, r, v) {
      DeclineRounds(cfg, i, r, v);
    } else if op > |r.log| + 1 {
      TransferRounds(cfg, i, r, StateTransfer);
      SameQueries(cfg, i, r.(status := StateTransfer), r');
    } else {
      var r1 := if op == |r.log| + 1 then Append(r, e) else r;
      SameQueries(cfg, i, r, r1);
      CommitRounds(cfg, i, r1, Min(c, |r1.log|));
      SameQueries(cfg, i, CommitUpTo(cfg, i, r1, Min(c, |r1.log|)), r');
    }
  }

  lemma CommitMessageRounds(cfg: Config, i: nat, r: Replica, v: nat, c: nat)
    requires RoundsInv(cfg, i, r)
    ensures RoundsInv(cfg, i, OnCommit(cfg, i, r, v, c))
  {
    hide RoundsInv, CommitUpTo, Decline;
    CommitRounds(cfg, i, r, c);
    if !Accepts(cfg, i, r, v) {
      DeclineRounds(cfg, i, r, v);
    } else if c > |r.log| {
      TransferRounds(cfg, i, r, StateTransfer);
      SameQueries(cfg, i, r.(status := StateTransfer), OnCommit(cfg, i, r, v, c));
    }
  }

  lemma MergedSame(r: Replica, start: nat, entries: Log)
    ensures var r' := Merge(r, start, entries);
            r'.q == r.q && r'.commit == r.commit && r'.sm == r.sm && r'.view == r.view && r'.status == r.status
  {
  }

  lemma CommitFrame(cfg: Config, i: nat, r: Replica, c: nat)
    ensures CommitUpTo(cfg, i, r, c).view == r.view && CommitUpTo(cfg, i, r, c).status == r.status
  {
    if c > r.commit {
      ExecuteQueriesFrame(cfg, i, Execute(r.(commit := c), Min(c, DurableOp(r))));
    }
  }

  lemma NewStateRounds(h: History, i: nat, r: Replica, v: nat, start: nat, entries: Log, c: nat)
    requires RepOk(h, i, r) && RoundsInv(h.cfg, i, r)
    ensures RoundsInv(h.cfg, i, OnNewState(h.cfg, i, r, v, start, entries, c))
  {
    TransferPart(h, i, r);
    hide RepOk, RoundsInv, InstallState;
    if v == r.view && (r.status == StateTransfer || r.status == ViewChange) {
      InstallRounds(h.cfg, i, r, start, entries, c);
    }
  }

  lemma InstallRounds(cfg: Config, i: nat, r: Replica, start: nat, entries: Log, c: nat)
    requires RoundsInv(cfg, i, r)
    requires (r.status == StateTransfer && cfg.Primary(r.view) != i) || r.status == ViewChange
    ensures RoundsInv(cfg, i, InstallState(cfg, i, r, start, entries, c))
  {
    hide RoundsInv, CommitUpTo, TryStartView, Merge, EnterNormal;
    var r' := InstallState(cfg, i, r, start, entries, c);
    var m := Merge(r, start, entries);
    MergedSame(r, start, entries);
    if r.status == StateTransfer {
      SameQueries(cfg, i, r, m);
      CommitRounds(cfg, i, m, c);
      CommitFrame(cfg, i, m, c);
      TransferRounds(cfg, i, CommitUpTo(cfg, i, m, c), Normal);
      SameQueries(cfg, i, CommitUpTo(cfg, i, m, c).(status := Normal), r');
    } else {
      var r1 := m.(catchingUp := None);
      SameQueries(cfg, i, r, r1);
      StartRounds(cfg, i, r1);
      var r2 := EnterNormal(CommitUpTo(cfg, i, r1, c));
      CommitRounds(cfg, i, r1, c);
      EnterRounds(cfg, i, CommitUpTo(cfg, i, r1, c));
      SameQueries(cfg, i, r2, SendPrepareOk(i, r2));
    }
  }

  lemma RestoreRounds(h: History, i: nat, r: Replica, m: Message, k: nat)
    requires RepOk(h, i, r) && RoundsInv(h.cfg, i, r) && Fetches(r, m, k)
    ensures RoundsInv(h.cfg, i, Restored(h.cfg, i, r, m, k))
  {
    TransferPart(h, i, r);
    hide RepOk, InstallState;
    assert RoundsInv(h.cfg, i, Fetched(r, m, k));
    hide RoundsInv;
    InstallRounds(h.cfg, i, Fetched(r, m, k), m.start, m.entries, m.commit);
  }

  lemma TransferPart(h: History, i: nat, r: Replica)
    requires RepOk(h, i, r)
    ensures r.status == StateTransfer ==> h.cfg.Primary(r.view) != i
  {
  }

  lemma VoteRounds(cfg: Config, i: nat, r: Replica, v: nat, from: nat)
    requires RoundsInv(cfg, i, r)
    ensures RoundsInv(cfg, i, OnStartViewChange(cfg, i, r, v, from))
  {
    hide RoundsInv, SendReport, BeginViewChange;
    var r' := OnStartViewChange(cfg, i, r, v, from);
    if v < r.view || (v == r.view && r.status != ViewChange) {
      SameQueries(cfg, i, r, r');
    } else {
      var r1 := if v > r.view then BeginViewChange(i, r, v) else r;
      LeaveRounds(cfg, i, r, v);
      var r2 := r1.(svcFrom := r1.svcFrom + {from});
      SameQueries(cfg, i, r1, r2);
      SameQueries(cfg, i, r2, r2.(dvcSent := true));
      ReportRounds(cfg, i, r2.(dvcSent := true));
    }
  }

  lemma DoViewChangeRounds(cfg: Config, i: nat, r: Replica, v: nat, from: nat, d: Report)
    requires RoundsInv(cfg, i, r)
    ensures RoundsInv(cfg, i, OnDoViewChange(cfg, i, r, v, from, d))
  {
    hide RoundsInv, RecordReport, BeginViewChange;
    if v < r.view || cfg.Primary(v) != i || (v == r.view && r.status == Normal) {
      SameQueries(cfg, i, r, OnDoViewChange(cfg, i, r, v, from, d));
    } else {
      var r1 := if v > r.view then BeginViewChange(i, r, v) else r;
      LeaveRounds(cfg, i, r, v);
      RecordRounds(cfg, i, r1, from, d);
    }
  }

  lemma StartViewRounds(cfg: Config, i: nat, r: Replica, v: nat, log: Log, c: nat)
    requires RoundsInv(cfg, i, r)
    ensures RoundsInv(cfg, i, OnStartView(cfg, i, r, v, log, c))
  {
    hide RoundsInv, CommitUpTo, Merge, EnterNormal;
    if !(v < r.view || (v == r.view && r.status != ViewChange)) {
      var r1 := CommitUpTo(cfg, i, Merge(r, 0, log).(view := v), c);
      EnterRounds(cfg, i, r1);
      SameQueries(cfg, i, EnterNormal(r1), SendPrepareOk(i, EnterNormal(r1)));
    }
  }

  lemma IdleRounds(cfg: Config, i: nat, r: Replica)
    requires RoundsInv(cfg, i, r)
    ensures RoundsInv(cfg, i, OnIdleViewChange(cfg, i, r))
  {
    hide RoundsInv, SendReport;
    if r.status == ViewChange {
      var r1 := if r.catchingUp.Some? then SendEarly(r, GetState(i, r.catchingUp.value, r.view, r.commit)) else r;
      var r2 := if r.catchingUp.None? || r.dvcSent then Send(r1, StartViewChange(r.view, i)) else r1;
      SameQueries(cfg, i, r, r2);
      ReportRounds(cfg, i, r2);
    }
  }

  lemma MessageRounds(h: History, i: nat, r: Replica, m: Message)
    requires RepOk(h, i, r) && RoundsInv(h.cfg, i, r)
    ensures RoundsInv(h.cfg, i, OnMessage(h.cfg, i, r, m))
  {
    var cfg := h.cfg;
    hide RepOk, RoundsInv, OnPrepare, OnPrepareOk, OnCommit, OnNewState, OnStartViewChange, OnDoViewChange, OnStartView, OnConfirmViewOk;
    match m
    case Prepare(v, op, e, c) => PrepareRounds(cfg, i, r, v, op, e, c);
    case PrepareOk(v, op, j) => PrepareOkRounds(cfg, i, r, v, op, j);
    case Commit(v, c) => CommitMessageRounds(cfg, i, r, v, c);
    case GetState(j, _, v, op) => SameQueries(cfg, i, r, OnGetState(i, r, j, v, op));
    case NewState(_, _, v, s, es, c) => NewStateRounds(h, i, r, v, s, es, c);
    case StartViewChange(v, j) => VoteRounds(cfg, i, r, v, j);
    case DoViewChange(v, j, d) => DoViewChangeRounds(cfg, i, r, v, j, d);
    case StartView(v, log, c) => StartViewRounds(cfg, i, r, v, log, c);
    case ConfirmView(v, round) => SameQueries(cfg, i, r, OnConfirmView(cfg, i, r, v, round));
    case ConfirmViewOk(v, round, j) => ConfirmRounds(cfg, i, r, v, round, j);
  }

  lemma PrepareOkRounds(cfg: Config, i: nat, r: Replica, v: nat, op: nat, from: nat)
    requires RoundsInv(cfg, i, r)
    ensures RoundsInv(cfg, i, OnPrepareOk(cfg, i, r, v, op, from))
  {
    hide RoundsInv, RegisterAck;
    AckRounds(cfg, i, r, from, op);
  }

  lemma InputRounds(h: History, i: nat, r: Replica, input: Input)
    requires HistoryOk(h) && RepOk(h, i, r) && RoundsInv(h.cfg, i, r)
    ensures RoundsInv(h.cfg, i, OnInput(h.cfg, i, r, input, h))
  {
    var cfg := h.cfg;
    TransferPart(h, i, r);
    hide HistoryOk, RepOk, RoundsInv, OnRequest, OnMessage, OnTimeout, OnIdlePrimary, OnIdleTransfer, OnIdleViewChange, OnQuery;
    match input
    case ClientEntry(e) => RequestRounds(cfg, i, r, e);
    case Query(id) => OnQueryRounds(h, i, r, id, h.completed, Moved(h, r.view));
    case Receive(m) => MessageRounds(h, i, r, m);
    case Timeout => TimeoutRounds(cfg, i, r);
    case IdlePrimary(due) => IdlePrimaryRounds(cfg, i, r, due);
    case IdleTransfer => IdleTransferRounds(cfg, i, r);
    case IdleViewChange => IdleRounds(cfg, i, r);
  }

  lemma RequestRounds(cfg: Config, i: nat, r: Replica, e: LogEntry)
    requires RoundsInv(cfg, i, r)
    ensures RoundsInv(cfg, i, OnRequest(cfg, i, r, e))
  {
    hide RoundsInv;
    SameQueries(cfg, i, r, OnRequest(cfg, i, r, e));
  }

  lemma TimeoutRounds(cfg: Config, i: nat, r: Replica)
    requires RoundsInv(cfg, i, r)
    ensures RoundsInv(cfg, i, OnTimeout(cfg, i, r))
  {
    hide RoundsInv, BeginViewChange;
    LeaveRounds(cfg, i, r, r.view + 1);
  }

  lemma IdlePrimaryRounds(cfg: Config, i: nat, r: Replica, due: nat)
    requires RoundsInv(cfg, i, r)
    ensures RoundsInv(cfg, i, OnIdlePrimary(cfg, i, r, due))
  {
    hide RoundsInv;
    SameQueries(cfg, i, r, OnIdlePrimary(cfg, i, r, due));
  }

  lemma IdleTransferRounds(cfg: Config, i: nat, r: Replica)
    requires RoundsInv(cfg, i, r)
    ensures RoundsInv(cfg, i, OnIdleTransfer(cfg, i, r))
  {
    hide RoundsInv;
    SameQueries(cfg, i, r, OnIdleTransfer(cfg, i, r));
  }

  lemma LandRounds(cfg: Config, i: nat, r: Replica, skip: bool)
    requires r.out.Some? && RoundsInv(cfg, i, r)
    ensures RoundsInv(cfg, i, Persisted(cfg, i, r, skip))
  {
    hide RoundsInv, RegisterAck, ApplyCommitted, Owned;
    var r1 := LandedReplica(r, LandedDisk(r, skip));
    SameQueries(cfg, i, r, r1);
    AckRounds(cfg, i, r1, i, DurableOp(r1));
    OwnedPart(cfg, i, r1);
    OwnedPart(cfg, i, RegisterAck(cfg, i, r1, i, DurableOp(r1)));
    ApplyRounds(cfg, i, r1, DurableOp(r1));
    ApplyRounds(cfg, i, RegisterAck(cfg, i, r1, i, DurableOp(r1)), DurableOp(r1));
  }

  lemma OwnedPart(cfg: Config, i: nat, r: Replica)
    requires RoundsInv(cfg, i, r)
    ensures Owned(cfg, i, r)
  {
  }

  lemma RestartRounds(cfg: Config, i: nat, disk: Image, flushed: Log)
    ensures RoundsInv(cfg, i, Restart(cfg, i, disk, flushed))
  {
    hide RoundsInv, ApplyCommitted, Owned, BeginViewChange;
    var commit := Max(disk.commit, |flushed|);
    var log := if |flushed| > disk.commit then flushed + Drop(disk.log, |flushed|) else disk.log;
    var r := New(cfg).(view := disk.view, lastNormal := disk.lastNormal, commit := commit, log := log,
                       sm := flushed, flushed := flushed, durable := |log|, disk := disk,
                       failed := commit > |log|);
    NoQueries(cfg, i, r);
    OwnedPart(cfg, i, r);
    ApplyRounds(cfg, i, r, |log|);
    var r1 := ApplyCommitted(cfg, i, r, |log|);
    LeaveRounds(cfg, i, r1, disk.view);
    LeaveRounds(cfg, i, r1, disk.view + 1);
  }

  lemma DrainRounds(cfg: Config, i: nat, r: Replica, early: set<Message>)
    requires RoundsInv(cfg, i, r)
    ensures RoundsInv(cfg, i, r.(early := early, q := r.q.(unsent := false)))
  {
    var q' := r.q.(unsent := false);
    assert Parked(q') <==> Parked(r.q) by {
      if k :| 0 <= k < |r.q.queries| && r.q.queries[k].round > r.q.round {
        assert q'.queries[k].round > q'.round;
      }
    }
  }

  lemma StepRounds(s: System, e: Event)
    requires Inv(s) && Enabled(s, e) && RoundsInv(s.h.cfg, e.i, s.reps[e.i])
    ensures RoundsInv(s.h.cfg, e.i, Step(s, e).reps[e.i])
  {
    hide Inv, HistoryOk, RepOk, RoundsInv, OnInput, Restored, Persisted, Restart, Acted;
    RepPart(s, e.i);
    var cfg, i, r := s.h.cfg, e.i, s.reps[e.i];
    match e
    case Act(_, input) => InputRounds(s.h, i, r, input);
    case Drain(_, sent) => DrainRounds(cfg, i, r, r.early - sent);
    case Take(_) => SameQueries(cfg, i, r, TakeWrite(r));
    case Land(_, skip) => LandRounds(cfg, i, r, skip);
    case Flush(_) => SameQueries(cfg, i, r, r.(flushed := r.sm));
    case Restore(_, m, k) => RestoreRounds(s.h, i, r, m, k);
    case Crash(_, landed) => RestartRounds(cfg, i, if landed then r.out.value else r.disk, r.flushed);
  }

  /** In every run at most 32 rounds are out, queries wait in order, a query parked on a round not
      started means all 32 are, and no query that could be answered waits. */
  lemma {:induction false} RoundsHold(cfg: Config, run: seq<System>, k: nat, i: nat)
    requires InRun(cfg, run, k, i)
    ensures i < |run[k].reps| && RoundsInv(cfg, i, At(run, k, i))
  {
    hide Inv, RoundsInv, Step, HistoryOk, RepOk;
    StateOk(cfg, run, k, i);
    if k == 0 {
      NoQueries(cfg, i, New(cfg));
      InitialIs(cfg, i);
    } else {
      RoundsHold(cfg, run, k - 1, i);
      RunOk(cfg, run, k - 1, k - 1);
      assert IsStep(run[k - 1], run[k - 1 + 1]);
      var e :| Enabled(run[k - 1], e) && run[k] == Step(run[k - 1], e);
      OthersStay(run[k - 1], e);
      if e.i == i {
        StepRounds(run[k - 1], e);
      }
    }
  }

  lemma InitialIs(cfg: Config, i: nat)
    requires i < cfg.n
    ensures |Initial(cfg).reps| == cfg.n && Initial(cfg).reps[i] == New(cfg)
  {
  }

  lemma OthersStay(s: System, e: Event)
    requires Enabled(s, e)
    ensures |Step(s, e).reps| == |s.reps| && forall j :: 0 <= j < |s.reps| && j != e.i ==> Step(s, e).reps[j] == s.reps[j]
  {
  }
}
