/** Queries and the rounds of view confirmations that let the primary answer them. */
module Reads {
  import opened Types
  import opened Quorums
  import opened Protocol
  import opened Cluster
  import opened Invariant
  import opened Growth
  import opened Safety
  import opened Steps
  import opened Entering
  import opened Others
  import opened Handlers

  /** A change to the queries and rounds of a primary. */
  lemma RoundsChangeOk(h: History, i: nat, r: Replica, q: Rounds)
    requires RepOk(h, i, r) && |q.confirmed| == |r.q.confirmed| && q.viewStart == r.q.viewStart
    requires Leads(h, i, Snapshot(r)) && RoundsOk(h, i, r.view, q, r.early) && QueriesOk(h, r.view, q.queries)
    ensures RepOk(h, i, r.(q := q))
  {
    hide ImagesOk, StatusOk, LeadsOk, CatchingUpOk, BoxesOk, AcksOk, ReportsOk, RecordedOk, WritesOk, ExecutedOk,
      ExecutionOk, AckedOk, EarlyOk, RoundsOk, QueriesOk, AnswersOk;
  }

  lemma MoreReaching(cfg: Config, marks: seq<nat>, marks': seq<nat>, mark: nat)
    requires cfg.IsQuorum(Reaching(marks, mark)) && |marks'| == |marks| == cfg.n
    requires forall j :: 0 <= j < |marks| ==> marks[j] <= marks'[j]
    ensures cfg.IsQuorum(Reaching(marks', mark))
  {
    SubsetCount(Reaching(marks, mark), Reaching(marks', mark));
  }

  lemma LeaderParts(h: History, i: nat, r: Replica)
    requires RepOk(h, i, r) && h.cfg.Primary(r.view) == i && r.status == Normal
    ensures Leads(h, i, Snapshot(r)) && RoundsOk(h, i, r.view, r.q, r.early) && QueriesOk(h, r.view, r.q.queries)
    ensures KnowsCompleted(h, r.view, r.commit) && r.q.viewStart == |h.views[r.view].init| && |r.q.confirmed| == h.cfg.n
  {
    hide BoxesOk, AcksOk, ReportsOk, RecordedOk, WritesOk, ExecutionOk, AckedOk, EarlyOk, AnswersOk, RoundsOk, QueriesOk;
  }

  lemma StartRoundOk(h: History, i: nat, r: Replica)
    requires RepOk(h, i, r) && h.cfg.Primary(r.view) == i && r.status == Normal
    ensures RepOk(h, i, StartRound(i, r))
  {
    RepFacts(h, i, r);
    LeaderParts(h, i, r);
    hide RepOk;
    var q' := StartRound(i, r).q;
    if r.q.done > 0 {
      MoreReaching(h.cfg, r.q.confirmed, q'.confirmed, r.q.done);
    }
    RoundsChangeOk(h, i, r, q');
    SendEarlyOk(h, i, r.(q := q'), ConfirmView(r.view, r.q.round + 1));
  }

  /** If a later view is on record, a quorum is past this one. */
  lemma QuorumMoved(h: History, v: nat, w: nat)
    requires h.cfg.Valid() && ViewsOk(h) && ReachedOk(h) && OnRecord(h, w) && w > v
    ensures h.cfg.IsQuorum(Moved(h, v))
  {
    assert ViewOk(h, w);
    var reports := h.views[w].origin.reports;
    forall j | j in reports
      ensures j in Moved(h, v)
    {
      assert ReportedBy(h, w, h.views[w].born, j, reports[j], reports[h.views[w].origin.best]);
    }
    SubsetCount(reports.Keys, Moved(h, v));
  }

  lemma ChosenOnRecord(h: History, u: nat, n: nat)
    requires h.cfg.Valid() && MsgsOk(h) && Chosen(h, u, n)
    ensures OnRecord(h, u)
  {
    var q :| AckQuorum(h, u, n, q);
    assert |q| > 0;
    var j :| j in q;
    assert Acked(h, u, n, j);
    var m: nat :| m >= n && PrepareOk(u, m, j) in h.msgs;
    assert SentOk(h, PrepareOk(u, m, j));
  }

  /** When a query arrives, the op it waits for covers what has completed, or a quorum is past the view. */
  lemma FloorOk(h: History, v: nat, commit: nat)
    requires HistoryOk(h) && KnowsCompleted(h, v, commit)
    ensures (|h.completed| <= Max(commit, |h.views[v].init|) && h.completed <= h.views[v].log) || h.cfg.IsQuorum(Moved(h, v))
  {
    hide ReportsKeep, ViewsOk, MsgsOk, ReachedOk, ConfirmsOk;
    if w :| w > v && OnRecord(h, w) {
      QuorumMoved(h, v, w);
    } else if h.completed != [] {
      var u: nat :| Chosen(h, u, |h.completed|) && h.completed <= h.views[u].log;
      ChosenOnRecord(h, u, |h.completed|);
      assert u <= v;
      assert ChosenBy(h, u, |h.completed|);
      KeptHolds(h, u, |h.completed|, v);
    }
  }

  lemma NewQueryOk(h: History, i: nat, r: Replica, x: WaitingQuery)
    requires HistoryOk(h) && RepOk(h, i, r) && h.cfg.Primary(r.view) == i && r.status == Normal
    requires x.op == Max(r.commit, r.q.viewStart) && x.floor == h.completed && x.moved == Moved(h, r.view)
    requires x.round > 0 && forall round: nat :: ConfirmView(r.view, round) in h.msgs ==> round < x.round
    ensures RepOk(h, i, r.(q := r.q.(queries := r.q.queries + [x])))
  {
    hide RepOk, RoundsOk, KnowsCompleted, MsgsOk, ViewsOk, ReportsKeep, CompletedOk, ReachedOk;
    RepFacts(h, i, r);
    LeaderParts(h, i, r);
    FloorOk(h, r.view, r.commit);
    assert QueryOk(h, r.view, x) by {
      assert |h.views[r.view].init| <= |h.views[r.view].log| by { ViewInit(h, r.view); }
    }
    var q := r.q.(queries := r.q.queries + [x]);
    SameRounds(h, i, r.view, r.q, q, r.early);
    RoundsChangeOk(h, i, r, q);
  }

  lemma SameRounds(h: History, i: nat, view: nat, q: Rounds, q': Rounds, early: set<Message>)
    requires RoundsOk(h, i, view, q, early) && q' == q.(queries := q'.queries)
    ensures RoundsOk(h, i, view, q', early)
  {
  }

  lemma QueryKeeps(h: History, i: nat, r: Replica, id: nat)
    requires HistoryOk(h) && RepOk(h, i, r)
    ensures Quiet(h, i, r, OnQuery(h.cfg, i, r, id, h.completed, Moved(h, r.view)))
  {
    hide RepOk, HistoryOk, Moved, KnowsCompleted, QueriesOk;
    RepFacts(h, i, r);
    if h.cfg.Primary(r.view) == i && r.status == Normal && !(exists q :: q in r.q.queries && q.id == id) {
      LeaderParts(h, i, r);
      var room := r.q.round - r.q.done < RoundsOut;
      var r1 := if !r.q.unsent && room then StartRound(i, r) else r;
      if !r.q.unsent && room {
        StartRoundOk(h, i, r);
      }
      var round := if r.q.unsent || room then r1.q.round else r1.q.round + 1;
      NewQueryOk(h, i, r1, WaitingQuery(id, Max(r1.commit, r1.q.viewStart), round, h.completed, Moved(h, r.view)));
    }
  }

  /** A backup confirms a round while its disk is not past the view. */
  lemma ConfirmViewKeeps(h: History, h': History, i: nat, r: Replica, v: nat, round: nat)
    requires HistoryOk(h) && RepOk(h, i, r) && ConfirmView(v, round) in h.msgs
    requires v == r.view && h.cfg.Primary(v) != i && h' == h.(confirms := h.confirms + {ConfirmViewOk(v, round, i)})
    ensures Quiet(h', i, r, OnConfirmView(h.cfg, i, r, v, round))
  {
    assert Apart(h, h', i) by { DiskBehind(h, i, r); }
    RepApartQuiet(h, h', i, r);
    hide RepOk;
    RepFacts(h, i, r);
    SendEarlyOk(h', i, r, ConfirmViewOk(v, round, i));
  }

  lemma ValidPart(h: History)
    requires HistoryOk(h)
    ensures h.cfg.Valid()
  {
  }

  lemma DiskBehind(h: History, i: nat, r: Replica)
    requires RepOk(h, i, r)
    ensures i < |h.reached| && h.reached[i] <= r.view
  {
  }

  lemma CountedOk(h: History, i: nat, r: Replica, from: nat, round: nat)
    requires h.cfg.Valid() && RepOk(h, i, r) && h.cfg.Primary(r.view) == i && r.status == Normal && from < h.cfg.n
    requires ConfirmViewOk(r.view, round, from) in h.confirms && r.q.confirmed[from] < round <= r.q.round
    ensures RepOk(h, i, r.(q := r.q.(confirmed := r.q.confirmed[from := round])))
  {
    LeaderParts(h, i, r);
    hide RepOk, QueriesOk;
    var q := r.q.(confirmed := r.q.confirmed[from := round]);
    if q.done > 0 {
      MoreReaching(h.cfg, r.q.confirmed, q.confirmed, q.done);
    }
    RoundsChangeOk(h, i, r, q);
  }

  lemma DoneOk(h: History, i: nat, r: Replica)
    requires h.cfg.Valid() && RepOk(h, i, r) && h.cfg.Primary(r.view) == i && r.status == Normal
    requires QuorumMark(h.cfg, r.q.confirmed, |r.q.confirmed|) > r.q.done
    ensures RepOk(h, i, r.(q := r.q.(done := QuorumMark(h.cfg, r.q.confirmed, |r.q.confirmed|))))
  {
    LeaderParts(h, i, r);
    hide RepOk, QueriesOk;
    var done := QuorumMark(h.cfg, r.q.confirmed, |r.q.confirmed|);
    assert r.q.confirmed[..|r.q.confirmed|] == r.q.confirmed;
    assert done in r.q.confirmed;
    RoundsChangeOk(h, i, r, r.q.(done := done));
  }

  lemma RoundDoneOk(h: History, i: nat, r: Replica)
    requires HistoryOk(h) && RepOk(h, i, r) && h.cfg.Primary(r.view) == i && r.status == Normal
    requires QuorumMark(h.cfg, r.q.confirmed, |r.q.confirmed|) > r.q.done
    ensures var r' := RoundDone(h.cfg, i, r, QuorumMark(h.cfg, r.q.confirmed, |r.q.confirmed|));
            RepOk(h, i, r') && r'.view == r.view && r'.lastNormal == r.lastNormal && r'.log == r.log
  {
    hide HistoryOk, RepOk, QuorumMark;
    ValidPart(h);
    DoneOk(h, i, r);
    var r1 := r.(q := r.q.(done := QuorumMark(h.cfg, r.q.confirmed, |r.q.confirmed|)));
    var last := |r1.q.queries| - 1;
    if last >= 0 && r1.q.queries[last].round > r1.q.round {
      StartRoundOk(h, i, r1);
      ExecuteQueriesOk(h, i, StartRound(i, r1));
    } else {
      ExecuteQueriesOk(h, i, r1);
    }
  }

  lemma ConfirmViewOkKeeps(h: History, i: nat, r: Replica, v: nat, round: nat, from: nat)
    requires HistoryOk(h) && RepOk(h, i, r) && SentOk(h, ConfirmViewOk(v, round, from))
    ensures Quiet(h, i, r, OnConfirmViewOk(h.cfg, i, r, v, round, from))
  {
    hide HistoryOk, RepOk, RoundsOk, QueriesOk, KnowsCompleted, ImageOk, RoundDone, QuorumMark;
    RepFacts(h, i, r);
    if v == r.view && h.cfg.Primary(v) == i && r.status == Normal && from < |r.q.confirmed|
       && r.q.confirmed[from] < round <= r.q.round {
      LeaderParts(h, i, r);
      ValidPart(h);
      CountedOk(h, i, r, from, round);
      var r1 := r.(q := r.q.(confirmed := r.q.confirmed[from := round]));
      if QuorumMark(h.cfg, r1.q.confirmed, |r1.q.confirmed|) > r1.q.done {
        RoundDoneOk(h, i, r1);
      }
    }
  }
}
