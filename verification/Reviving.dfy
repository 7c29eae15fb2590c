/** From any state that a run has come to, its replicas can start a view together. */
module Reviving {
  import opened Types
  import opened Quorums
  import opened Protocol
  import opened Cluster
  import opened Invariant
  import opened Entering
  import opened Safety
  import opened Growth
  import opened Steps
  import opened Running
  import opened Runs
  import opened Answering
  import opened Continuing

  // ---------------------------------------------------------------------------
  // Votes

  /** Replica `i` votes for view `w` and has the votes of `votes`: it reports at the threshold. */
  ghost predicate Votes(cfg: Config, i: nat, r: Replica, w: nat, votes: set<nat>) {
    && r.view == w && r.status == ViewChange && r.catchingUp.None? && votes <= r.svcFrom
    && (r.dvcSent <==> |r.svcFrom| >= cfg.n / 2)
    && r.dvcFrom.Keys == (if cfg.Primary(w) == i && r.dvcSent then {i} else {})
  }

  function Said(s: System, r: Replica): set<Message> { r.outbox + r.waiting + s.h.msgs }

  ghost predicate Reported(said: set<Message>, w: nat, i: nat) { exists d :: DoViewChange(w, i, d) in said }

  /** So it does in the cluster: its vote, and its report if it made one, have left or wait for a write. */
  ghost predicate Voter(cfg: Config, s: System, i: nat, w: nat, votes: set<nat>) {
    && i < |s.reps| && Votes(cfg, i, s.reps[i], w, votes)
    && StartViewChange(w, i) in Said(s, s.reps[i])
    && (s.reps[i].dvcSent && cfg.Primary(w) != i ==> Reported(Said(s, s.reps[i]), w, i))
  }

  lemma Begins(cfg: Config, i: nat, r: Replica, w: nat)
    requires cfg.Valid()
    ensures var r' := BeginViewChange(i, r, w); Votes(cfg, i, r', w, {}) && !r'.dvcSent && r'.outbox == r.outbox + {StartViewChange(w, i)} && r'.waiting == r.waiting
  {
  }

  lemma Hears(cfg: Config, i: nat, r: Replica, w: nat, from: nat, votes: set<nat>)
    requires cfg.Valid() && Votes(cfg, i, r, w, votes)
    ensures var r' := OnStartViewChange(cfg, i, r, w, from);
            && Votes(cfg, i, r', w, votes + {from}) && r.outbox <= r'.outbox && r'.waiting == r.waiting && (r.dvcSent ==> r'.dvcSent)
            && (r'.dvcSent && !r.dvcSent && cfg.Primary(w) != i ==> Reported(r'.outbox, w, i))
  {
    var r1 := r.(svcFrom := r.svcFrom + {from});
    SubsetCount(r.svcFrom, r1.svcFrom);
    var own := r1.dvcFrom[i := ReportOf(r)];
    if !r.dvcSent && |r1.svcFrom| >= cfg.n / 2 {
      if cfg.Primary(w) == i {
        assert own.Keys == {i} && |own.Keys| == |own|;
      } else {
        assert DoViewChange(w, i, ReportOf(r)) in OnStartViewChange(cfg, i, r, w, from).outbox;
      }
    }
  }

  lemma FirstHeard(cfg: Config, i: nat, r: Replica, w: nat, from: nat)
    requires w > r.view
    ensures OnStartViewChange(cfg, i, r, w, from) == OnStartViewChange(cfg, i, BeginViewChange(i, r, w), w, from)
  {
  }

  lemma VoterStays(cfg: Config, s: System, s': System, i: nat, w: nat, votes: set<nat>, who: set<nat>)
    requires Voter(cfg, s, i, w, votes) && Only(s, s', who) && i !in who
    ensures Voter(cfg, s', i, w, votes)
  {
    hide Votes;
  }

  lemma SaysOn(a: set<Message>, b: set<Message>, w: nat, i: nat)
    requires Reported(a, w, i) && a <= b
    ensures Reported(b, w, i)
  {
  }

  // ---------------------------------------------------------------------------
  // Voting in the cluster

  /** Its time runs out. */
  lemma Wakes(cfg: Config, run: seq<System>, s: System, i: nat) returns (s': System)
    requires cfg.Sound() && Goes(cfg, run, None, s) && i < cfg.n && i < |s.reps| && !InCharge(cfg, i, s.reps[i])
    ensures Goes(cfg, run, None, s') && Only(s, s', {i}) && Voter(cfg, s', i, s.reps[i].view + 1, {})
  {
    hide Goes, Votes, BeginViewChange;
    CalmRep(cfg, run, None, s, i);
    var r := s.reps[i];
    s' := Act1(cfg, run, None, s, Act(i, Timeout));
    Begins(cfg, i, r, r.view + 1);
    assert s'.reps[i] == BeginViewChange(i, r, r.view + 1);
  }

  lemma {:induction false} WakesUpTo(cfg: Config, run: seq<System>, s: System, i: nat, w: nat) returns (s': System)
    requires cfg.Sound() && Goes(cfg, run, None, s) && i < cfg.n && i < |s.reps| && !InCharge(cfg, i, s.reps[i]) && s.reps[i].view < w
    ensures Goes(cfg, run, None, s') && Only(s, s', {i}) && Voter(cfg, s', i, w, {})
    decreases w - s.reps[i].view
  {
    hide Goes, Voter;
    var s1 := Wakes(cfg, run, s, i);
    if s.reps[i].view + 1 == w {
      s' := s1;
    } else {
      VoterView(cfg, s1, i, s.reps[i].view + 1, {});
      s' := WakesUpTo(cfg, run, s1, i, w);
    }
  }

  lemma VoterView(cfg: Config, s: System, i: nat, w: nat, votes: set<nat>)
    requires Voter(cfg, s, i, w, votes)
    ensures i < |s.reps| && s.reps[i].view == w && !InCharge(cfg, i, s.reps[i])
  {
  }

  /** A write lands, and its vote and its report have left. */
  lemma VoteLeaves(cfg: Config, run: seq<System>, s: System, i: nat, w: nat, votes: set<nat>) returns (s': System)
    requires cfg.Sound() && Goes(cfg, run, None, s) && i < cfg.n && Voter(cfg, s, i, w, votes)
    ensures Goes(cfg, run, None, s') && Only(s, s', {i}) && Voter(cfg, s', i, w, votes)
    ensures StartViewChange(w, i) in s'.h.msgs
    ensures s'.reps[i].dvcSent == s.reps[i].dvcSent && (s.reps[i].dvcSent && cfg.Primary(w) != i ==> Reported(s'.h.msgs, w, i))
  {
    hide Goes, AtRest, Counted;
    s' := Settles(cfg, run, None, s, i);
    assert Said(s, s.reps[i]) <= s'.h.msgs <= Said(s', s'.reps[i]);
  }

  /** It hears a vote, the first for a later view or one more. */
  lemma HearsOne(cfg: Config, run: seq<System>, s: System, i: nat, w: nat, from: nat, votes: set<nat>) returns (s': System)
    requires cfg.Sound() && Goes(cfg, run, None, s) && i < cfg.n && i < |s.reps| && from != i && StartViewChange(w, from) in s.h.msgs
    requires Voter(cfg, s, i, w, votes) || (s.reps[i].view < w && votes == {})
    ensures Goes(cfg, run, None, s') && Only(s, s', {i}) && Voter(cfg, s', i, w, votes + {from})
  {
    hide Goes, Votes, OnStartViewChange, BeginViewChange;
    CalmRep(cfg, run, None, s, i);
    var r := s.reps[i];
    s' := Act1(cfg, run, None, s, Act(i, Receive(StartViewChange(w, from))));
    var r' := s'.reps[i];
    assert r' == OnStartViewChange(cfg, i, r, w, from);
    if s.reps[i].view < w && votes == {} {
      var r1 := BeginViewChange(i, r, w);
      Begins(cfg, i, r, w);
      FirstHeard(cfg, i, r, w, from);
      Hears(cfg, i, r1, w, from, {});
      assert {} + {from} == {from};
    } else {
      Hears(cfg, i, r, w, from, votes);
    }
    HeardSays(s, s', r, r', w, i);
  }

  lemma HeardSays(s: System, s': System, r: Replica, r': Replica, w: nat, i: nat)
    requires s.h.msgs <= s'.h.msgs && r.outbox <= r'.outbox && r.waiting == r'.waiting
    ensures Said(s, r) <= Said(s', r')
    ensures Reported(Said(s, r), w, i) ==> Reported(Said(s', r'), w, i)
    ensures Reported(r'.outbox, w, i) ==> Reported(Said(s', r'), w, i)
  {
  }

  // ---------------------------------------------------------------------------
  // Everyone votes

  /** Each of `who` hears `from`, and votes as well. */
  lemma {:induction false} JoinAll(cfg: Config, run: seq<System>, s: System, who: set<nat>, w: nat, from: nat) returns (s': System)
    requires cfg.Sound() && Goes(cfg, run, None, s) && from !in who && StartViewChange(w, from) in s.h.msgs
    requires forall i {:trigger i in who} :: i in who ==> i < cfg.n && i < |s.reps| && s.reps[i].view < w
    ensures Goes(cfg, run, None, s') && Only(s, s', who)
    ensures forall i {:trigger i in who} :: i in who ==> Voter(cfg, s', i, w, {from}) && StartViewChange(w, i) in s'.h.msgs
    decreases who
  {
    hide Goes, Voter;
    if who == {} {
      s' := s;
    } else {
      var i :| i in who;
      var s1 := HearsOne(cfg, run, s, i, w, from, {});
      assert {} + {from} == {from};
      var s2 := VoteLeaves(cfg, run, s1, i, w, {from});
      s' := JoinAll(cfg, run, s2, who - {i}, w, from);
      VoterStays(cfg, s2, s', i, w, {from}, who - {i});
    }
  }

  /** Replica `i` hears all the votes of `from`. */
  lemma {:induction false} HearsAll(cfg: Config, run: seq<System>, s: System, i: nat, w: nat, from: set<nat>, votes: set<nat>) returns (s': System)
    requires cfg.Sound() && Goes(cfg, run, None, s) && i < cfg.n && Voter(cfg, s, i, w, votes) && i !in from
    requires forall k {:trigger k in from} :: k in from ==> StartViewChange(w, k) in s.h.msgs
    ensures Goes(cfg, run, None, s') && Only(s, s', {i}) && Voter(cfg, s', i, w, votes + from)
    decreases from
  {
    hide Goes, Voter;
    if from == {} {
      s' := s;
      assert votes + from == votes;
    } else {
      var k :| k in from;
      assert i < |s.reps| by { VoterView(cfg, s, i, w, votes); }
      var s1 := HearsOne(cfg, run, s, i, w, k, votes);
      s' := HearsAll(cfg, run, s1, i, w, from - {k}, votes + {k});
      assert votes + {k} + (from - {k}) == votes + from;
    }
  }

  /** With the votes of all the others it reports. */
  lemma Reports(cfg: Config, run: seq<System>, s: System, i: nat, w: nat, others: set<nat>, votes: set<nat>) returns (s': System)
    requires cfg.Sound() && Goes(cfg, run, None, s) && i < cfg.n && Voter(cfg, s, i, w, votes) && i !in others && |others| >= cfg.n / 2
    requires forall k {:trigger k in others} :: k in others ==> StartViewChange(w, k) in s.h.msgs
    ensures Goes(cfg, run, None, s') && Only(s, s', {i}) && Voter(cfg, s', i, w, votes + others) && s'.reps[i].dvcSent
    ensures cfg.Primary(w) != i ==> Reported(s'.h.msgs, w, i)
  {
    hide Goes, Voter;
    var s1 := HearsAll(cfg, run, s, i, w, others, votes);
    VotesEnough(cfg, s1, i, w, votes, others);
    s' := VoteLeaves(cfg, run, s1, i, w, votes + others);
    VoterView(cfg, s1, i, w, votes + others);
  }

  lemma VotesEnough(cfg: Config, s: System, i: nat, w: nat, votes: set<nat>, others: set<nat>)
    requires Voter(cfg, s, i, w, votes + others) && |others| >= cfg.n / 2
    ensures s.reps[i].dvcSent
  {
    SubsetCount(others, s.reps[i].svcFrom);
  }

  /** All of `who` report, with the votes of everyone in `all`. */
  lemma {:induction false} ReportAll(cfg: Config, run: seq<System>, s: System, who: set<nat>, all: set<nat>, w: nat) returns (s': System)
    requires cfg.Sound() && Goes(cfg, run, None, s) && who <= all && cfg.IsQuorum(all) && cfg.Primary(w) !in who
    requires forall k {:trigger k in all} :: k in all ==> k < cfg.n && StartViewChange(w, k) in s.h.msgs
    requires forall i {:trigger i in who} :: i in who ==> exists votes :: Voter(cfg, s, i, w, votes)
    ensures Goes(cfg, run, None, s') && Only(s, s', who)
    ensures forall i {:trigger i in who} :: i in who ==> (exists votes :: Voter(cfg, s', i, w, votes)) && Reported(s'.h.msgs, w, i)
    decreases who
  {
    hide Goes, Voter;
    if who == {} {
      s' := s;
    } else {
      var i :| i in who;
      var votes :| Voter(cfg, s, i, w, votes);
      var s1 := Reports(cfg, run, s, i, w, all - {i}, votes);
      forall k | k in who - {i}
        ensures exists votes :: Voter(cfg, s1, k, w, votes)
      {
        var vk :| Voter(cfg, s, k, w, vk);
        VoterStays(cfg, s, s1, k, w, vk, {i});
      }
      var rest := who - {i};
      s' := ReportAll(cfg, run, s1, rest, all, w);
      VoterStays(cfg, s1, s', i, w, votes + (all - {i}), rest);
      SaysOn(s1.h.msgs, s'.h.msgs, w, i);
      forall k | k in who
        ensures (exists votes :: Voter(cfg, s', k, w, votes)) && Reported(s'.h.msgs, w, k)
      {
        assert k == i || k in rest;
      }
    }
  }

  // ---------------------------------------------------------------------------
  // The primary starts the view

  /** The primary of view `w` has the reports of itself and of `from`, too few so far. */
  ghost predicate Collects(cfg: Config, i: nat, r: Replica, w: nat, from: set<nat>) {
    && r.view == w && cfg.Primary(w) == i && r.status == ViewChange && r.catchingUp.None?
    && r.dvcFrom.Keys == {i} + from && |{i} + from| < cfg.Quorum()
  }

  /** It leads the view, which it announces. */
  ghost predicate Started(cfg: Config, i: nat, r: Replica, w: nat, said: set<Message>) {
    && r.view == r.lastNormal == w && InCharge(cfg, i, r) && Counted(cfg, r) && |r.acked| == cfg.n && Quiet(r)
    && exists c :: StartView(w, r.log, c) in said
  }

  /** No query waits, and every round is done. */
  ghost predicate Quiet(r: Replica) { r.q.queries == [] && r.q.round == r.q.done && !r.q.unsent }

  lemma NoneAcked(cfg: Config, n: nat)
    ensures QuorumMark(cfg, Zeros(n), n) == 0
  {
    hide QuorumMark;
    var c := QuorumMark(cfg, Zeros(n), n);
  }

  lemma StartsNow(cfg: Config, i: nat, r: Replica, w: nat)
    requires r.view == w && cfg.Primary(w) == i && |r.acked| == cfg.n && exists j :: j in r.dvcFrom && j < cfg.n
    ensures var r' := TryStartView(cfg, i, r); Started(cfg, i, r', w, r'.outbox)
  {
    hide CommitUpTo, QuorumMark, Best, MaxCommit;
    var best := Best(r.dvcFrom, cfg.n);
    var r1 := Merge(r, 0, r.dvcFrom[best.value].log);
    var c := MaxCommit(r.dvcFrom, cfg.n);
    CommitRuns(cfg, i, r1, c);
    var r' := TryStartView(cfg, i, r);
    NoneAcked(cfg, |r.acked|);
    assert StartView(w, r'.log, r'.commit) in r'.outbox;
  }

  lemma CollectsOne(cfg: Config, i: nat, r: Replica, w: nat, j: nat, d: Report, from: set<nat>)
    requires Collects(cfg, i, r, w, from) && |r.acked| == cfg.n && i < cfg.n && j < cfg.n
    ensures var r' := OnDoViewChange(cfg, i, r, w, j, d);
            if |{i} + (from + {j})| < cfg.Quorum() then Collects(cfg, i, r', w, from + {j}) && |r'.acked| == cfg.n
            else Started(cfg, i, r', w, r'.outbox)
  {
    hide TryStartView, Started;
    var r1 := r.(dvcFrom := r.dvcFrom[j := d]);
    assert r1.dvcFrom.Keys == {i} + (from + {j});
    assert |r1.dvcFrom.Keys| == |r1.dvcFrom|;
    if |r1.dvcFrom| >= cfg.Quorum() {
      StartsNow(cfg, i, r1, w);
    }
  }

  lemma AckedSize(cfg: Config, run: seq<System>, calm: Option<nat>, s: System, i: nat)
    requires cfg.Sound() && Goes(cfg, run, calm, s) && i < cfg.n
    ensures i < |s.reps| && |s.reps[i].acked| == cfg.n
  {
    hide Goes, HistoryOk;
    RepHolds(cfg, run, calm, s, i);
    AckedPart(s.h, i, s.reps[i]);
  }

  lemma AckedPart(h: History, i: nat, r: Replica)
    requires RepOk(h, i, r)
    ensures |r.acked| == h.cfg.n
  {
  }

  lemma StillMissing(i: nat, from: set<nat>, rest: set<nat>, quorum: nat)
    requires |{i} + from| < quorum <= |{i} + (from + rest)|
    ensures rest != {}
  {
    assert rest == {} ==> from + rest == from;
  }

  lemma {:induction false} Collect(cfg: Config, run: seq<System>, s: System, i: nat, w: nat, from: set<nat>, rest: set<nat>) returns (s': System)
    requires cfg.Sound() && Goes(cfg, run, None, s) && i < cfg.n && i < |s.reps| && Collects(cfg, i, s.reps[i], w, from)
    requires i !in rest && |{i} + (from + rest)| >= cfg.Quorum()
    requires forall j {:trigger j in rest} :: j in rest ==> j < cfg.n && Reported(s.h.msgs, w, j)
    ensures Goes(cfg, run, None, s') && Only(s, s', {i}) && Started(cfg, i, s'.reps[i], w, s'.reps[i].outbox)
    decreases rest
  {
    hide Goes, Started, OnDoViewChange;
    StillMissing(i, from, rest, cfg.Quorum());
    if rest != {} {
      var j :| j in rest;
      var d :| DoViewChange(w, j, d) in s.h.msgs;
      AckedSize(cfg, run, None, s, i);
      CalmRep(cfg, run, None, s, i);
      var s1 := Act1(cfg, run, None, s, Act(i, Receive(DoViewChange(w, j, d))));
      CollectsOne(cfg, i, s.reps[i], w, j, d, from);
      if |{i} + (from + {j})| < cfg.Quorum() {
        assert from + {j} + (rest - {j}) == from + rest;
        s' := Collect(cfg, run, s1, i, w, from + {j}, rest - {j});
      } else {
        s' := s1;
      }
    }
  }

  // ---------------------------------------------------------------------------
  // Whom to begin with

  lemma {:induction false} HighestView(s: System, q: set<nat>) returns (m: nat)
    requires q != {} && forall j :: j in q ==> j < |s.reps|
    ensures m in q && forall j {:trigger s.reps[j]} :: j in q ==> s.reps[j].view <= s.reps[m].view
    decreases q
  {
    var x :| x in q;
    var rest := q - {x};
    m := x;
    if rest != {} {
      var k := HighestView(s, rest);
      m := if s.reps[k].view >= s.reps[x].view then k else x;
      forall j | j in q
        ensures s.reps[j].view <= s.reps[m].view
      {
        assert j == x || j in rest;
      }
    } else {
      assert q == {x};
    }
  }

  lemma Another(cfg: Config, q: set<nat>, i: nat) returns (j: nat)
    requires cfg.Valid() && cfg.IsQuorum(q)
    ensures j in q && j != i
  {
    if q <= {i} {
      SubsetCount(q, {i});
    }
    j :| j in q && j != i;
  }

  lemma ReachedPart(h: History, i: nat, r: Replica)
    requires RepOk(h, i, r)
    ensures i < |h.reached| && h.reached[i] <= r.view && (r.status == Normal ==> r.lastNormal == r.view)
  {
  }

  lemma NotBoth(cfg: Config, m: nat, r: Replica, j: nat, r': Replica)
    requires InCharge(cfg, m, r) && j != m && r'.view == r.view
    ensures !InCharge(cfg, j, r')
  {
  }

  /** Of a quorum someone does not lead the view it is in, or finds out that it is over. */
  lemma StepsDown(cfg: Config, run: seq<System>, s: System, q: set<nat>) returns (s': System, k: nat)
    requires cfg.Sound() && Goes(cfg, run, None, s) && cfg.IsQuorum(q)
    ensures Goes(cfg, run, None, s') && Only(s, s', q) && k in q && k < |s'.reps| && !InCharge(cfg, k, s'.reps[k])
  {
    hide Goes, InCharge, AtRest, Counted;
    CalmRep(cfg, run, None, s, 0);
    var _ := Another(cfg, q, 0);
    var m := HighestView(s, q);
    var j := Another(cfg, q, m);
    if !InCharge(cfg, m, s.reps[m]) {
      s', k := s, m;
    } else if !InCharge(cfg, j, s.reps[j]) {
      s', k := s, j;
    } else {
      if s.reps[j].view == s.reps[m].view {
        NotBoth(cfg, m, s.reps[m], j, s.reps[j]);
      }
      s' := GivesWay(cfg, run, s, m, j);
      OnlyWiden(s, s', {m, j}, q);
      k := j;
    }
  }

  lemma OnlyWiden(s: System, s': System, who: set<nat>, q: set<nat>)
    requires Only(s, s', who) && who <= q
    ensures Only(s, s', q)
  {
  }

  /** Who leads an earlier view hears from one that leads a later one. */
  lemma GivesWay(cfg: Config, run: seq<System>, s: System, m: nat, j: nat) returns (s': System)
    requires cfg.Sound() && Goes(cfg, run, None, s) && m < cfg.n && j < cfg.n && m != j && m < |s.reps| && j < |s.reps|
    requires InCharge(cfg, m, s.reps[m]) && s.reps[j].view < s.reps[m].view
    ensures Goes(cfg, run, None, s') && Only(s, s', {m, j}) && !InCharge(cfg, j, s'.reps[j])
  {
    hide Goes;
    CalmRep(cfg, run, None, s, m);
    var v := s.reps[m].view;
    var s1, c := SaysCommit(cfg, run, s, m);
    CalmRep(cfg, run, None, s1, j);
    s' := Act1(cfg, run, None, s1, Act(j, Receive(Commit(v, c))));
    assert s'.reps[j] == CatchUp(cfg, j, s.reps[j], v);
  }

  lemma SaysCommit(cfg: Config, run: seq<System>, s: System, m: nat) returns (s': System, c: nat)
    requires cfg.Sound() && Goes(cfg, run, None, s) && m < cfg.n && m < |s.reps| && InCharge(cfg, m, s.reps[m])
    ensures Goes(cfg, run, None, s') && Only(s, s', {m}) && Commit(s.reps[m].view, c) in s'.h.msgs
  {
    hide Goes, HistoryOk, RepOk, Counted;
    RepHolds(cfg, run, None, s, m);
    ReachedPart(s.h, m, s.reps[m]);
    var s1 := Settles(cfg, run, None, s, m);
    CalmRep(cfg, run, None, s1, m);
    var r := s1.reps[m];
    c := r.commit;
    var s2 := Act1(cfg, run, None, s1, Act(m, IdlePrimary(0)));
    assert s2.reps[m] == OnIdlePrimary(cfg, m, r, 0);
    s' := DrainsOne(cfg, run, None, s2, m, Commit(r.view, c));
  }

  // ---------------------------------------------------------------------------
  // The others follow

  /** Where some other replica is not past view `v`, what replica `i` has committed there is of the view's
      log, and so is the rest of its own log. */
  lemma WithinView(h: History, i: nat, r: Replica, j: nat)
    requires HistoryOk(h) && RepOk(h, i, r) && r.lastNormal == r.view && j != i && j < |h.reached| && h.reached[j] <= r.view
    ensures r.view in h.views && |r.log| <= |h.views[r.view].log| && ChosenBy(h, r.view, r.commit)
    ensures Holds(h, r.view, r.log, r.commit)
  {
    RepFacts(h, i, r);
    hide RepOk, HistoryOk;
    FactsHold(h, i, r);
    CertainChosen(h, i, r.view, r.commit, j);
    DecidedOk(h, r.view, r.commit);
  }

  lemma LeaderLog(h: History, i: nat, r: Replica)
    requires RepOk(h, i, r) && InCharge(h.cfg, i, r) && r.lastNormal == r.view
    ensures r.view in h.views && r.log == h.views[r.view].log && i < |h.reached| && h.reached[i] <= r.view
  {
  }

  /** A replica follows the view, which its primary announced with the log it still has. */
  lemma FollowsOne(cfg: Config, run: seq<System>, s: System, i: nat, w: nat, p: nat, c: nat) returns (s': System)
    requires cfg.Sound() && Goes(cfg, run, None, s) && i < cfg.n && i < |s.reps| && i != p && p < |s.reps| && p < cfg.n
    requires var r := s.reps[i]; r.view == w && r.status == ViewChange
    requires var r := s.reps[p]; r.view == r.lastNormal == w && InCharge(cfg, p, r) && StartView(w, r.log, c) in s.h.msgs
    ensures Goes(cfg, run, None, s') && Only(s, s', {i})
    ensures var r' := s'.reps[i]; r'.view == r'.lastNormal == w && r'.status == Normal && |r'.log| == |s.reps[p].log|
  {
    hide Goes, HistoryOk, RepOk, Counted, OnStartView, Acted;
    CalmRep(cfg, run, None, s, i);
    var L := s.reps[p].log;
    s' := Act1(cfg, run, None, s, Act(i, Receive(StartView(w, L, c))));
    assert s'.reps[i] == OnStartView(cfg, i, s.reps[i], w, L, c);
    CommitInLog(cfg, run, None, s, i);
    FollowedShape(cfg, i, s.reps[i], w, L, c);
    NoLonger(cfg, run, None, s', i, p);
  }

  lemma CommitInLog(cfg: Config, run: seq<System>, calm: Option<nat>, s: System, i: nat)
    requires cfg.Sound() && Goes(cfg, run, calm, s) && i < cfg.n
    ensures i < |s.reps| && s.reps[i].commit <= |s.reps[i].log| && |s.reps[i].sm| <= s.reps[i].commit
  {
    hide Goes, HistoryOk, RepOk;
    RepHolds(cfg, run, calm, s, i);
    RepFacts(s.h, i, s.reps[i]);
    ExecutedPart(s.h, i, s.reps[i]);
  }

  lemma ExecutedPart(h: History, i: nat, r: Replica)
    requires RepOk(h, i, r)
    ensures |r.sm| <= r.commit <= |r.log| && r.sm <= r.log && !r.failed
  {
  }

  /** No replica's log in a view is longer than that of the one that leads it. */
  lemma NoLonger(cfg: Config, run: seq<System>, calm: Option<nat>, s: System, i: nat, p: nat)
    requires cfg.Sound() && Goes(cfg, run, calm, s) && i < cfg.n && p < cfg.n && i != p && i < |s.reps| && p < |s.reps|
    requires InCharge(cfg, p, s.reps[p]) && s.reps[p].lastNormal == s.reps[p].view == s.reps[i].view == s.reps[i].lastNormal
    ensures |s.reps[i].log| <= |s.reps[p].log|
    ensures s.reps[i].commit <= |s.reps[p].log|
    ensures |s.reps[i].log| == |s.reps[p].log| ==> s.reps[i].log == s.reps[p].log
  {
    hide Goes, HistoryOk, RepOk;
    RepHolds(cfg, run, calm, s, i);
    RepHolds(cfg, run, calm, s, p);
    LeaderLog(s.h, p, s.reps[p]);
    WithinView(s.h, i, s.reps[i], p);
    LogWithin(s.h, i, s.reps[i]);
  }

  lemma LogWithin(h: History, i: nat, r: Replica)
    requires HistoryOk(h) && r.view in h.views && Holds(h, r.view, r.log, r.commit) && ChosenBy(h, r.view, r.commit) && |r.log| <= |h.views[r.view].log|
    ensures r.log <= h.views[r.view].log && r.commit <= |h.views[r.view].log|
  {
    hide HistoryOk, ChosenBy;
    DecidedOk(h, r.view, r.commit);
    var view := h.views[r.view].log;
    assert Same(r.log, view, 0, |r.log|);
    SameStart(r.log, view, |r.log|);
    assert r.log == r.log[..|r.log|] == view[..|r.log|];
  }

  lemma FollowedShape(cfg: Config, i: nat, r: Replica, w: nat, log: Log, c: nat)
    requires r.view == w && r.status == ViewChange && r.commit <= |r.log|
    ensures var r' := OnStartView(cfg, i, r, w, log, c); r'.view == r'.lastNormal == w && r'.status == Normal && |r'.log| >= |log|
  {
    hide CommitUpTo;
    CommitRuns(cfg, i, Merge(r, 0, log).(view := w), c);
  }

  // ---------------------------------------------------------------------------
  // Together

  /** A replica is normal in view `w`, with a log of `n` entries and nothing to write. */
  ghost predicate Member(r: Replica, w: nat, n: nat) {
    r.view == r.lastNormal == w && r.status == Normal && |r.log| == n && AtRest(r)
  }

  /** The replicas of quorum `q` are members of view `w`, which replica `p` of them leads. */
  ghost predicate Together(cfg: Config, s: System, w: nat, p: nat, q: set<nat>) {
    && cfg.Primary(w) == p && |s.reps| == cfg.n && cfg.IsQuorum(q) && p in q
    && (forall j {:trigger s.reps[j]} :: j in q ==> Member(s.reps[j], w, |s.reps[p].log|))
    && Counted(cfg, s.reps[p]) && |s.reps[p].acked| == cfg.n && Quiet(s.reps[p])
  }

  lemma {:induction false} FollowAll(cfg: Config, run: seq<System>, s: System, who: set<nat>, w: nat, p: nat, c: nat) returns (s': System)
    requires cfg.Sound() && Goes(cfg, run, None, s) && p < cfg.n && p < |s.reps| && p !in who
    requires forall i {:trigger i in who} :: i in who ==> i < cfg.n && i < |s.reps| && s.reps[i].view == w && s.reps[i].status == ViewChange
    requires var r := s.reps[p]; r.view == r.lastNormal == w && InCharge(cfg, p, r) && StartView(w, r.log, c) in s.h.msgs
    ensures Goes(cfg, run, None, s') && Only(s, s', who)
    ensures forall i {:trigger i in who} :: i in who ==> i < |s'.reps| && Member(s'.reps[i], w, |s.reps[p].log|)
    decreases who
  {
    hide Goes, AtRest, Counted;
    if who == {} {
      s' := s;
    } else {
      var i :| i in who;
      var s1 := FollowsOne(cfg, run, s, i, w, p, c);
      var s2 := Settles(cfg, run, None, s1, i);
      var rest := who - {i};
      s' := FollowAll(cfg, run, s2, rest, w, p, c);
      forall k | k in who
        ensures k < |s'.reps| && Member(s'.reps[k], w, |s.reps[p].log|)
      {
        assert k == i || k in rest;
      }
    }
  }

  ghost predicate HasVoted(cfg: Config, s: System, i: nat, w: nat) {
    (exists votes :: Voter(cfg, s, i, w, votes)) && StartViewChange(w, i) in s.h.msgs
  }

  /** A view past `v` that replica `p` leads. */
  lemma LaterView(cfg: Config, v: nat, p: nat) returns (w: nat)
    requires cfg.Valid() && p < cfg.n
    ensures w > v && cfg.Primary(w) == p
  {
    w := (v + 1) * cfg.n + p;
    RestIs(w, v + 1, cfg.n, p);
    AtLeast(cfg.n, v + 1);
    assert cfg.n * (v + 1) == (v + 1) * cfg.n;
  }

  lemma RestIs(x: nat, k: nat, n: nat, r: nat)
    requires n > 0 && x == k * n + r && r < n
    ensures x % n == r
  {
    var a, b := x / n, x % n;
    assert n * a == a * n;
    NotLess(a, b, k, r, n);
    NotLess(k, r, a, b, n);
  }

  lemma NotLess(a: nat, b: nat, k: nat, r: nat, n: nat)
    requires a * n + b == k * n + r && b < n && r < n
    ensures a <= k
  {
    if a > k {
      var d := a - k;
      Spread(d, k, n);
      AtLeast(d, n);
    }
  }

  lemma Spread(d: nat, k: nat, n: nat)
    ensures (d + k) * n == d * n + k * n
  {
  }

  lemma AtLeast(d: nat, n: nat)
    requires d >= 1
    ensures d * n >= n
  {
    Spread(d - 1, 1, n);
  }

  /** All of a quorum vote for a view later than any they are in, one of them first. */
  lemma AllVote(cfg: Config, run: seq<System>, s: System, q: set<nat>, p: nat) returns (s': System, w: nat)
    requires cfg.Sound() && Goes(cfg, run, None, s) && cfg.IsQuorum(q) && p in q
    ensures Goes(cfg, run, None, s') && Only(s, s', q) && cfg.Primary(w) == p
    ensures forall i: nat {:trigger HasVoted(cfg, s', i, w)} :: i in q ==> HasVoted(cfg, s', i, w)
  {
    hide Goes, Voter, InCharge;
    CalmRep(cfg, run, None, s, 0);
    var s0, k := StepsDown(cfg, run, s, q);
    CalmRep(cfg, run, None, s0, 0);
    var m := HighestView(s0, q);
    w := LaterView(cfg, s0.reps[m].view, p);
    var s1 := WakesUpTo(cfg, run, s0, k, w);
    var s2 := VoteLeaves(cfg, run, s1, k, w, {});
    var others := q - {k};
    CalmRep(cfg, run, None, s2, 0);
    s' := JoinAll(cfg, run, s2, others, w, k);
    VoterStays(cfg, s2, s', k, w, {}, others);
    OnlyChain(s, s0, s1, s2, s', q, k);
    forall i: nat | i in q
      ensures HasVoted(cfg, s', i, w)
    {
      assert i == k || i in others;
      if i == k {
        assert Voter(cfg, s', k, w, {});
      } else {
        assert Voter(cfg, s', i, w, {k});
      }
    }
  }

  lemma OnlyChain(s: System, s0: System, s1: System, s2: System, s3: System, q: set<nat>, k: nat)
    requires Only(s, s0, q) && Only(s0, s1, {k}) && Only(s1, s2, {k}) && Only(s2, s3, q - {k}) && k in q
    ensures Only(s, s3, q)
  {
  }

  /** Then all report, the primary last. */
  lemma AllReport(cfg: Config, run: seq<System>, s: System, w: nat, q: set<nat>) returns (s': System)
    requires cfg.Sound() && Goes(cfg, run, None, s) && cfg.IsQuorum(q) && cfg.Primary(w) in q
    requires forall i: nat {:trigger HasVoted(cfg, s, i, w)} :: i in q ==> HasVoted(cfg, s, i, w)
    ensures Goes(cfg, run, None, s') && |s'.reps| == cfg.n && Only(s, s', q)
    ensures forall i {:trigger s'.reps[i]} :: i in q ==> s'.reps[i].view == w && s'.reps[i].status == ViewChange
    ensures forall i: nat {:trigger Reported(s'.h.msgs, w, i)} :: i in q && i != cfg.Primary(w) ==> Reported(s'.h.msgs, w, i)
    ensures Collects(cfg, cfg.Primary(w), s'.reps[cfg.Primary(w)], w, {})
  {
    hide Goes, Voter, Reported;
    var p := cfg.Primary(w);
    var who := q - {p};
    assert |who| == |q| - 1 >= cfg.n / 2;
    forall i | i in q
      ensures (exists votes :: Voter(cfg, s, i, w, votes)) && StartViewChange(w, i) in s.h.msgs
    {
      assert HasVoted(cfg, s, i, w);
    }
    var s1 := ReportAll(cfg, run, s, who, q, w);
    var votes :| Voter(cfg, s, p, w, votes);
    VoterStays(cfg, s, s1, p, w, votes, who);
    s' := Reports(cfg, run, s1, p, w, who, votes);
    CalmRep(cfg, run, None, s', 0);
    OnlyJoin(s, s1, s', who, {p}, q);
    forall i: nat | i in q
      ensures s'.reps[i].view == w && s'.reps[i].status == ViewChange
      ensures i != p ==> Reported(s'.h.msgs, w, i)
    {
      if i == p {
        VoterIs(cfg, s', p, w, votes + who);
      } else {
        assert i in who;
        var vi :| Voter(cfg, s1, i, w, vi);
        VoterStays(cfg, s1, s', i, w, vi, {p});
        VoterIs(cfg, s', i, w, vi);
        SaysOn(s1.h.msgs, s'.h.msgs, w, i);
      }
    }
    OwnCollected(cfg, s', p, w, votes + who);
  }

  lemma OnlyJoin(s: System, s1: System, s2: System, a: set<nat>, b: set<nat>, q: set<nat>)
    requires Only(s, s1, a) && Only(s1, s2, b) && a <= q && b <= q
    ensures Only(s, s2, q)
  {
  }

  lemma VoterIs(cfg: Config, s: System, i: nat, w: nat, votes: set<nat>)
    requires Voter(cfg, s, i, w, votes)
    ensures i < |s.reps| && s.reps[i].view == w && s.reps[i].status == ViewChange
  {
  }

  lemma OwnCollected(cfg: Config, s: System, i: nat, w: nat, votes: set<nat>)
    requires cfg.Valid() && Voter(cfg, s, i, w, votes) && cfg.Primary(w) == i && s.reps[i].dvcSent
    ensures Collects(cfg, i, s.reps[i], w, {})
  {
    assert {i} + {} == {i};
  }

  /** However a run has gone, the replicas of any quorum can go on, without the others, so that they are
      together in a view that any one of them leads. */
  lemma Assembles(cfg: Config, run: seq<System>, s: System, q: set<nat>, p: nat) returns (s': System, w: nat)
    requires cfg.Sound() && Goes(cfg, run, None, s) && cfg.IsQuorum(q) && p in q
    ensures Goes(cfg, run, None, s') && Together(cfg, s', w, p, q) && Only(s, s', q)
  {
    hide Goes, Reported, AtRest, Counted, Collects, Together, Only;
    var s1;
    s1, w := AllVote(cfg, run, s, q, p);
    var s2 := AllReport(cfg, run, s1, w, q);
    s' := Gathers(cfg, run, s2, w, p, q);
    OnlyJoin(s, s1, s2, q, q, q);
    OnlyJoin(s, s2, s', q, q, q);
  }

  lemma Gathers(cfg: Config, run: seq<System>, s: System, w: nat, p: nat, q: set<nat>) returns (s': System)
    requires cfg.Sound() && Goes(cfg, run, None, s) && |s.reps| == cfg.n && p == cfg.Primary(w) && cfg.IsQuorum(q) && p in q
    requires forall i {:trigger s.reps[i]} :: i in q ==> s.reps[i].view == w && s.reps[i].status == ViewChange
    requires forall i: nat {:trigger Reported(s.h.msgs, w, i)} :: i in q && i != p ==> Reported(s.h.msgs, w, i)
    requires Collects(cfg, p, s.reps[p], w, {})
    ensures Goes(cfg, run, None, s') && Together(cfg, s', w, p, q) && Only(s, s', q)
  {
    hide Goes, Reported, AtRest, Counted, Collects, Started, InCharge, Quiet, Together;
    var who := q - {p};
    assert {p} + ({} + who) == q;
    var s3 := Collect(cfg, run, s, p, w, {}, who);
    var s4, c := StartedLeaves(cfg, run, s3, p, w);
    CalmRep(cfg, run, None, s4, 0);
    InView(cfg, s, s3, s4, w, p, q);
    s' := Joins(cfg, run, s4, w, p, c, q);
    OnlyJoin(s, s3, s4, {p}, {p}, q);
    OnlyJoin(s, s4, s', q, q, q);
  }

  /** The others follow the view that has started. */
  lemma Joins(cfg: Config, run: seq<System>, s: System, w: nat, p: nat, c: nat, q: set<nat>) returns (s': System)
    requires cfg.Sound() && Goes(cfg, run, None, s) && |s.reps| == cfg.n && p == cfg.Primary(w) && cfg.IsQuorum(q) && p in q
    requires forall i {:trigger s.reps[i]} :: i in q && i != p ==> s.reps[i].view == w && s.reps[i].status == ViewChange
    requires var r := s.reps[p]; StartView(w, r.log, c) in s.h.msgs && Member(r, w, |r.log|) && Counted(cfg, r) && |r.acked| == cfg.n && Quiet(r)
    ensures Goes(cfg, run, None, s') && Together(cfg, s', w, p, q) && Only(s, s', q)
  {
    hide Goes, AtRest, Counted, Quiet;
    var who := q - {p};
    s' := FollowAll(cfg, run, s, who, w, p, c);
    CalmRep(cfg, run, None, s', 0);
    assert s'.reps[p] == s.reps[p] by { OneStays(s, s', who, p); }
    OnlyWiden(s, s', who, q);
    hide Only;
    forall j | j in q
      ensures Member(s'.reps[j], w, |s'.reps[p].log|)
    {
      assert j == p || j in who;
    }
  }

  lemma OneStays(s: System, s': System, who: set<nat>, p: nat)
    requires Only(s, s', who) && p < |s.reps| && p !in who
    ensures |s'.reps| == |s.reps| && s'.reps[p] == s.reps[p]
  {
  }

  lemma InView(cfg: Config, s: System, s1: System, s2: System, w: nat, p: nat, q: set<nat>)
    requires Only(s, s1, {p}) && Only(s1, s2, {p}) && |s.reps| == cfg.n && forall i :: i in q ==> i < cfg.n
    requires forall i {:trigger s.reps[i]} :: i in q ==> s.reps[i].view == w && s.reps[i].status == ViewChange
    ensures forall i {:trigger s2.reps[i]} :: i in q && i != p ==> s2.reps[i].view == w && s2.reps[i].status == ViewChange
  {
  }

  lemma StartedLeaves(cfg: Config, run: seq<System>, s: System, p: nat, w: nat) returns (s': System, c: nat)
    requires cfg.Sound() && Goes(cfg, run, None, s) && p < cfg.n && p < |s.reps| && Started(cfg, p, s.reps[p], w, s.reps[p].outbox)
    ensures Goes(cfg, run, None, s') && Only(s, s', {p})
    ensures var r := s'.reps[p]; StartView(w, r.log, c) in s'.h.msgs && Member(r, w, |r.log|) && Counted(cfg, r) && |r.acked| == cfg.n && Quiet(r) && InCharge(cfg, p, r)
  {
    hide Goes, AtRest, Counted;
    s' := Settles(cfg, run, None, s, p);
    c :| StartView(w, s.reps[p].log, c) in s.reps[p].outbox;
  }
}
