/** A query is answered: the replicas of a quorum that are together confirm the view of the one that leads it. */
module Asking {
  import opened Types
  import opened Quorums
  import opened Protocol
  import opened Cluster
  import opened Invariant
  import opened Entering
  import opened Steps
  import opened Running
  import opened Runs
  import opened Answering
  import opened Continuing
  import opened Reviving
  import opened Serving

  /** The query waits for round `rd`, which no quorum has confirmed yet. */
  ghost predicate Awaits(cfg: Config, r: Replica, w: nat, id: nat, rd: nat) {
    && r.view == w && r.status == Normal && |r.q.queries| == 1
    && r.q.queries[0].id == id && r.q.queries[0].round == rd && r.q.queries[0].op <= |r.sm|
    && r.q.round == rd && r.q.done < rd && |r.q.confirmed| == cfg.n
    && QuorumMark(cfg, r.q.confirmed, cfg.n) <= r.q.done
    && forall k {:trigger r.q.confirmed[k]} :: 0 <= k < cfg.n ==> r.q.confirmed[k] == rd || r.q.confirmed[k] <= r.q.done
  }

  /** It has its answer, from all that executed. */
  ghost predicate Answered(r: Replica, id: nat) { exists k :: 0 <= k < |r.answers| && r.answers[k].id == id && r.answers[k].state == r.sm }

  /** One more replica confirms. */
  lemma Confirms(cfg: Config, i: nat, r: Replica, w: nat, id: nat, rd: nat, from: nat)
    requires cfg.Primary(w) == i && Awaits(cfg, r, w, id, rd) && from < cfg.n
    ensures var r' := OnConfirmViewOk(cfg, i, r, w, rd, from);
            r'.sm == r.sm && ((Answered(r', id) && r'.view == w) ||
              (Awaits(cfg, r', w, id, rd) && r'.q.confirmed[from] == rd
               && forall k :: 0 <= k < cfg.n && r.q.confirmed[k] == rd ==> r'.q.confirmed[k] == rd))
  {
    hide QuorumMark, Awaits, Answered;
    AwaitsParts(cfg, r, w, id, rd);
    if r.q.confirmed[from] < rd {
      var r1 := r.(q := r.q.(confirmed := r.q.confirmed[from := rd]));
      var done := QuorumMark(cfg, r1.q.confirmed, |r1.q.confirmed|);
      MarkIs(cfg, r, w, id, rd, from);
      if done > r.q.done {
        AnswersOne(cfg, i, r1.(q := r1.q.(done := done)), id);
      }
    }
  }

  lemma AwaitsParts(cfg: Config, r: Replica, w: nat, id: nat, rd: nat)
    requires Awaits(cfg, r, w, id, rd)
    ensures r.view == w && r.status == Normal && |r.q.queries| == 1 && |r.q.confirmed| == cfg.n && r.q.round == rd && r.q.done < rd
    ensures r.q.queries[0].id == id && r.q.queries[0].round == rd && r.q.queries[0].op <= |r.sm|
    ensures forall k {:trigger r.q.confirmed[k]} :: 0 <= k < cfg.n ==> r.q.confirmed[k] <= rd
  {
  }

  /** One more confirmation either makes the round a quorum's, or leaves it waiting. */
  lemma MarkIs(cfg: Config, r: Replica, w: nat, id: nat, rd: nat, from: nat)
    requires Awaits(cfg, r, w, id, rd) && from < cfg.n
    ensures var marks := r.q.confirmed[from := rd];
            var done := QuorumMark(cfg, marks, |marks|);
            if done > r.q.done then done == rd else Awaits(cfg, r.(q := r.q.(confirmed := marks)), w, id, rd)
  {
    hide QuorumMark;
    var marks := r.q.confirmed[from := rd];
    assert marks[..|marks|] == marks;
  }

  /** The only query that waits is ready. */
  lemma AnswersOne(cfg: Config, i: nat, r: Replica, id: nat)
    requires InCharge(cfg, i, r) && |r.q.queries| == 1 && r.q.queries[0].id == id && r.q.queries[0].round <= r.q.done && r.q.queries[0].op <= |r.sm|
    ensures var r' := ExecuteQueries(cfg, i, r); r'.sm == r.sm && r'.view == r.view && Answered(r', id)
  {
    var r1 := r.(q := r.q.(queries := r.q.queries[1..]), answers := r.answers + [Answer(r.q.queries[0].id, r.q.queries[0].floor, r.sm)]);
    assert ExecuteQueries(cfg, i, r) == ExecuteQueries(cfg, i, r1) == r1;
    assert r1.answers[|r.answers|].id == id && r1.answers[|r.answers|].state == r1.sm;
  }

  /** The query arrives where no other waits, and starts a round. */
  lemma Arrives(cfg: Config, i: nat, r: Replica, w: nat, id: nat, floor: Log, moved: set<nat>)
    requires cfg.Valid() && InCharge(cfg, i, r) && r.view == w && Quiet(r) && |r.q.confirmed| == cfg.n && i < cfg.n
    requires r.commit <= |r.sm| && r.q.viewStart <= |r.sm|
    requires forall k {:trigger r.q.confirmed[k]} :: 0 <= k < cfg.n ==> r.q.confirmed[k] <= r.q.done
    ensures var r', rd := OnQuery(cfg, i, r, id, floor, moved), r.q.round + 1;
            && Awaits(cfg, r', w, id, rd) && r'.q.confirmed[i] == rd && ConfirmView(w, rd) in r'.early
            && r'.sm == r.sm && r'.disk == r.disk && r'.log == r.log
  {
    hide QuorumMark, OnQuery;
    var r', rd := OnQuery(cfg, i, r, id, floor, moved), r.q.round + 1;
    ArrivedShape(cfg, i, r, id, floor, moved);
    OnlyOwn(cfg, i, r.q.confirmed, r.q.done, rd);
  }

  lemma ArrivedShape(cfg: Config, i: nat, r: Replica, id: nat, floor: Log, moved: set<nat>)
    requires InCharge(cfg, i, r) && Quiet(r) && i < |r.q.confirmed|
    ensures var r', rd := OnQuery(cfg, i, r, id, floor, moved), r.q.round + 1;
            && r' == r.(early := r.early + {ConfirmView(r.view, rd)}, q := r'.q)
            && r'.q.queries == [WaitingQuery(id, Max(r.commit, r.q.viewStart), rd, floor, moved)]
            && r'.q.round == rd && r'.q.done == r.q.done && r'.q.confirmed == r.q.confirmed[i := rd]
  {
  }

  lemma OnlyOwn(cfg: Config, i: nat, marks: seq<nat>, done: nat, rd: nat)
    requires cfg.Valid() && i < |marks| == cfg.n && done < rd && forall k {:trigger marks[k]} :: 0 <= k < cfg.n ==> marks[k] <= done
    ensures QuorumMark(cfg, marks[i := rd], cfg.n) <= done
  {
    hide QuorumMark;
    var own := marks[i := rd];
    var c := QuorumMark(cfg, own, cfg.n);
    assert own[..cfg.n] == own;
    if c > done {
      assert Reaching(own, c) <= {i};
      SubsetCount(Reaching(own, c), {i});
    }
  }

  // ---------------------------------------------------------------------------
  // In the cluster

  lemma RoundsPart(h: History, i: nat, r: Replica)
    requires HistoryOk(h) && RepOk(h, i, r) && InCharge(h.cfg, i, r) && r.lastNormal == r.view
    ensures |r.q.confirmed| == h.cfg.n && r.view in h.views && r.q.viewStart == |h.views[r.view].init| <= |r.log|
    ensures forall k {:trigger r.q.confirmed[k]} :: 0 <= k < h.cfg.n ==> r.q.confirmed[k] <= r.q.round
  {
    LeaderLog(h, i, r);
    Safety.ViewInit(h, r.view) by { hide RepOk; }
    hide HistoryOk;
    assert Invariant.Leads(h, i, Snapshot(r));
    assert forall j: nat :: j < |r.q.confirmed| ==> r.q.confirmed[j] <= r.q.round;
  }

  /** A backup confirms the view. */
  lemma ConfirmsOne(cfg: Config, run: seq<System>, calm: Option<nat>, s: System, i: nat, w: nat, rd: nat) returns (s': System)
    requires cfg.Sound() && Goes(cfg, run, calm, s) && i < cfg.n && i < |s.reps| && cfg.Primary(w) != i && ConfirmView(w, rd) in s.h.msgs
    requires s.reps[i].view == w && s.reps[i].status == Normal
    ensures Goes(cfg, run, calm, s') && Only(s, s', {i}) && ConfirmViewOk(w, rd, i) in s'.h.msgs
    ensures s'.reps[i].view == w && s'.reps[i].status == Normal
  {
    hide Goes;
    CalmRep(cfg, run, calm, s, i);
    var s1 := Act1(cfg, run, calm, s, Act(i, Receive(ConfirmView(w, rd))));
    assert s1.reps[i] == SendEarly(s.reps[i], ConfirmViewOk(w, rd, i));
    s' := DrainsOne(cfg, run, calm, s1, i, ConfirmViewOk(w, rd, i));
  }

  lemma {:induction false} ConfirmAll(cfg: Config, run: seq<System>, calm: Option<nat>, s: System, who: set<nat>, w: nat, rd: nat) returns (s': System)
    requires cfg.Sound() && Goes(cfg, run, calm, s) && cfg.Primary(w) !in who && ConfirmView(w, rd) in s.h.msgs
    requires forall i {:trigger i in who} :: i in who ==> i < cfg.n && i < |s.reps| && s.reps[i].view == w && s.reps[i].status == Normal
    ensures Goes(cfg, run, calm, s') && Only(s, s', who)
    ensures forall i {:trigger i in who} :: i in who ==> ConfirmViewOk(w, rd, i) in s'.h.msgs
    decreases who
  {
    hide Goes;
    if who == {} {
      s' := s;
    } else {
      var i :| i in who;
      var s1 := ConfirmsOne(cfg, run, calm, s, i, w, rd);
      var rest := who - {i};
      s' := ConfirmAll(cfg, run, calm, s1, rest, w, rd);
      forall k | k in who
        ensures ConfirmViewOk(w, rd, k) in s'.h.msgs
      {
        assert k == i || k in rest;
      }
    }
  }

  /** The confirmations come in until the query is answered. */
  lemma {:induction false} HearConfirmed(cfg: Config, run: seq<System>, calm: Option<nat>, s: System, p: nat, w: nat, id: nat, rd: nat,
                                         q: set<nat>, who: set<nat>) returns (s': System)
    requires cfg.Sound() && Goes(cfg, run, calm, s) && p < |s.reps| && cfg.Primary(w) == p && p !in who && CalmIn(calm, w)
    requires cfg.IsQuorum(q) && p in q && who <= q && Awaits(cfg, s.reps[p], w, id, rd)
    requires forall j {:trigger j in who} :: j in who ==> ConfirmViewOk(w, rd, j) in s.h.msgs
    requires forall k :: k in q && k !in who ==> s.reps[p].q.confirmed[k] == rd
    ensures Goes(cfg, run, calm, s') && Only(s, s', {p}) && Answered(s'.reps[p], id) && s'.reps[p].sm == s.reps[p].sm
    decreases who
  {
    hide Goes, Awaits, Answered, OnConfirmViewOk;
    StillWaits(cfg, s.reps[p], w, id, rd, q, who);
    if who != {} {
      var j :| j in who;
      CalmRep(cfg, run, calm, s, p);
      Confirms(cfg, p, s.reps[p], w, id, rd, j);
      ConfirmKeeps(cfg, p, s.reps[p], w, rd, j);
      var s1 := Act1(cfg, run, calm, s, Act(p, Receive(ConfirmViewOk(w, rd, j))));
      assert s1.reps[p] == OnConfirmViewOk(cfg, p, s.reps[p], w, rd, j);
      if Answered(s1.reps[p], id) {
        s' := s1;
      } else {
        s' := HearConfirmed(cfg, run, calm, s1, p, w, id, rd, q, who - {j});
      }
    }
  }

  lemma ConfirmKeeps(cfg: Config, i: nat, r: Replica, w: nat, rd: nat, from: nat)
    ensures var r' := OnConfirmViewOk(cfg, i, r, w, rd, from); r'.status == r.status && r'.view == r.view
  {
    hide ExecuteQueries, QuorumMark;
    if !(w != r.view || cfg.Primary(w) != i || r.status != Normal || from >= |r.q.confirmed|
         || rd > r.q.round || rd <= r.q.confirmed[from]) {
      var r1 := r.(q := r.q.(confirmed := r.q.confirmed[from := rd]));
      var r2 := r1.(q := r1.q.(done := QuorumMark(cfg, r1.q.confirmed, |r1.q.confirmed|)));
      ExecuteServes(cfg, i, r2);
      ExecuteServes(cfg, i, StartRound(i, r2));
    }
  }

  /** With a quorum's confirmation a query does not wait. */
  lemma StillWaits(cfg: Config, r: Replica, w: nat, id: nat, rd: nat, q: set<nat>, who: set<nat>)
    requires cfg.Valid() && cfg.IsQuorum(q) && Awaits(cfg, r, w, id, rd) && forall k :: k in q && k !in who ==> r.q.confirmed[k] == rd
    ensures who != {} && |r.q.confirmed| == cfg.n
  {
    hide QuorumMark;
    if who == {} {
      AllReach(cfg, r.q.confirmed, rd, q);
    }
  }

  lemma AllReach(cfg: Config, marks: seq<nat>, n: nat, q: set<nat>)
    requires cfg.IsQuorum(q) && |marks| == cfg.n && forall k :: k in q ==> marks[k] >= n
    ensures QuorumMark(cfg, marks, cfg.n) >= n
  {
    hide QuorumMark;
    assert q <= Reaching(marks, n);
    SubsetCount(q, Reaching(marks, n));
    if QuorumMark(cfg, marks, cfg.n) < n {
      QuorumMarkIsHighest(cfg, marks, n);
    }
  }

  /** Members of a view answer a query that comes to the one that leads it. */
  lemma Answers(cfg: Config, run: seq<System>, calm: Option<nat>, s: System, w: nat, p: nat, q: set<nat>, id: nat) returns (s': System)
    requires cfg.Sound() && Goes(cfg, run, calm, s) && Serving.Served(cfg, s, w, p, q) && CalmIn(calm, w)
    ensures Goes(cfg, run, calm, s') && Only(s, s', q) && p < |s'.reps| && Answered(s'.reps[p], id) && s'.reps[p].sm == s.reps[p].sm
  {
    hide Goes, AtRest, Counted, HistoryOk, RepOk, Awaits, OnQuery;
    CalmRep(cfg, run, calm, s, p);
    var r, rd := s.reps[p], s.reps[p].q.round + 1;
    assert r.disk.lastNormal == w by { RestDisk(r); }
    RepHolds(cfg, run, calm, s, p);
    RoundsPart(s.h, p, r);
    Arrives(cfg, p, r, w, id, s.h.completed, Moved(s.h, w));
    QueryKeepsView(cfg, p, r, id, s.h.completed, Moved(s.h, w));
    var s1 := Act1(cfg, run, calm, s, Act(p, Query(id)));
    assert s1.reps[p] == OnQuery(cfg, p, r, id, s.h.completed, Moved(s.h, w));
    s' := Confirmed(cfg, run, calm, s1, w, p, q, id, rd);
    OnlyJoin(s, s1, s', {p}, q, q);
  }

  /** The round leaves, the others confirm, and the confirmations come in. */
  lemma Confirmed(cfg: Config, run: seq<System>, calm: Option<nat>, s: System, w: nat, p: nat, q: set<nat>, id: nat, rd: nat) returns (s': System)
    requires cfg.Sound() && Goes(cfg, run, calm, s) && |s.reps| == cfg.n && cfg.Primary(w) == p && cfg.IsQuorum(q) && p in q && CalmIn(calm, w)
    requires var r := s.reps[p]; Awaits(cfg, r, w, id, rd) && r.q.confirmed[p] == rd && ConfirmView(w, rd) in r.early && r.disk.lastNormal == w
    requires forall i {:trigger s.reps[i]} :: i in q && i != p ==> s.reps[i].view == w && s.reps[i].status == Normal
    ensures Goes(cfg, run, calm, s') && Only(s, s', q) && p < |s'.reps| && Answered(s'.reps[p], id) && s'.reps[p].sm == s.reps[p].sm
  {
    hide Goes, Awaits;
    var s2 := DrainsOne(cfg, run, calm, s, p, ConfirmView(w, rd));
    AwaitsStill(cfg, s.reps[p], s2.reps[p], w, id, rd);
    var who := q - {p};
    var s3 := ConfirmAll(cfg, run, calm, s2, who, w, rd);
    AwaitsParts(cfg, s3.reps[p], w, id, rd);
    s' := HearConfirmed(cfg, run, calm, s3, p, w, id, rd, q, who);
    OnlyJoin(s, s2, s3, {p}, who, q);
    OnlyJoin(s, s3, s', q, {p}, q);
  }

  lemma QueryKeepsView(cfg: Config, i: nat, r: Replica, id: nat, floor: Log, moved: set<nat>)
    ensures OnQuery(cfg, i, r, id, floor, moved).view == r.view && OnQuery(cfg, i, r, id, floor, moved).status == r.status
  {
  }

  lemma AwaitsStill(cfg: Config, r: Replica, r': Replica, w: nat, id: nat, rd: nat)
    requires Awaits(cfg, r, w, id, rd) && r' == r.(early := r'.early, q := r.q.(unsent := false))
    ensures Awaits(cfg, r', w, id, rd)
  {
  }

  /** However a run has gone, the replicas of any quorum can go on without the others so that a query that comes
      to any one of them is answered, from a state that holds all that had completed. */
  lemma EveryQueryAnswered(cfg: Config, run: seq<System>, q: set<nat>, p: nat, id: nat, e: LogEntry) returns (run': seq<System>, x: Answer)
    requires cfg.Sound() && IsRun(cfg, run) && cfg.IsQuorum(q) && p in q
    ensures run != [] && IsRun(cfg, run') && run <= run' && Only(run[|run| - 1], run'[|run'| - 1], q)
    ensures p < |run'[|run'| - 1].reps| && x in run'[|run'| - 1].reps[p].answers && x.id == id
    ensures run[|run| - 1].h.completed < x.state && x.state[|x.state| - 1] == e
  {
    hide IsRun, Inv, Goes, AtRest, Counted, Answered, Only;
    Stopped(cfg, run);
    var s := run[|run| - 1];
    var s1, w := Assembles(cfg, run, s, q, p);
    CompletedInLog(cfg, run, None, s1, w, p, q);
    StillCompleted(cfg, run, None, s1);
    var s2 := Round(cfg, run, None, s1, w, p, q, e);
    var s3 := Answers(cfg, run, None, s2, w, p, q, id);
    OnlyJoin(s, s1, s2, q, q, q);
    OnlyJoin(s, s2, s3, q, q, q);
    StateInLog(cfg, run, None, s2, p);
    run' := RunOf(cfg, run, None, s3);
    x := TheAnswer(s3.reps[p], id);
  }

  lemma TheAnswer(r: Replica, id: nat) returns (x: Answer)
    requires Answered(r, id)
    ensures x in r.answers && x.id == id && x.state == r.sm
  {
    var k :| 0 <= k < |r.answers| && r.answers[k].id == id && r.answers[k].state == r.sm;
    x := r.answers[k];
  }
}
