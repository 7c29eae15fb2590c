/** Scripts of view changes, for runs of any number of replicas: votes, reports, and views that start. */
module Electing {
  import opened Types
  import opened Quorums
  import opened Protocol
  import opened Cluster
  import opened Runs

  /** Replica state with nothing under way: its view, its log, and how much of it is committed. */
  ghost predicate Sits(cfg: Config, r: Replica, v: nat, ln: nat, log: Log, commit: nat) {
    && Calm(cfg, r) && r.view == v && r.lastNormal == ln <= v && r.log == log && r.commit == commit
    && r.status == (if ln < v then ViewChange else Normal)
  }

  /** What a replica keeps as it votes: its disk and its state machine. */
  ghost predicate Keeps(r: Replica, r': Replica) {
    r'.disk == r.disk && r'.sm == r.sm && r'.flushed == r.flushed
  }

  /** Replica `i` votes for view `v`, with the votes of others it has: it reports at the threshold. */
  ghost predicate Votes(cfg: Config, i: nat, r: Replica, v: nat, ln: nat, log: Log, commit: nat, votes: set<nat>) {
    && Sits(cfg, r, v, ln, log, commit) && ln < v && r.catchingUp.None? && votes <= r.svcFrom
    && (r.dvcSent <==> |r.svcFrom| >= cfg.n / 2)
    && r.dvcFrom == (if cfg.Primary(v) == i && r.dvcSent then map[i := Report(ln, log, commit)] else map[])
  }

  /** So it does in the cluster, and its vote and its report have left or wait for its write. */
  ghost predicate Voter(cfg: Config, s: System, i: nat, v: nat, ln: nat, log: Log, commit: nat, votes: set<nat>) {
    && i < |s.reps| && var r := s.reps[i];
    && Votes(cfg, i, r, v, ln, log, commit, votes)
    && StartViewChange(v, i) in r.outbox + s.h.msgs
    && (r.dvcSent && cfg.Primary(v) != i ==> DoViewChange(v, i, Report(ln, log, commit)) in r.outbox + s.h.msgs)
  }

  // ---------------------------------------------------------------------------
  // Votes

  lemma Begins(cfg: Config, i: nat, r: Replica, v: nat, ln: nat, log: Log, commit: nat)
    requires cfg.Valid() && Sits(cfg, r, r.view, ln, log, commit) && v > r.view
    ensures var r' := BeginViewChange(i, r, v);
            Votes(cfg, i, r', v, ln, log, commit, {}) && Keeps(r, r') && r'.outbox == r.outbox + {StartViewChange(v, i)} && r'.svcFrom == {}
  {
  }

  lemma Hears(cfg: Config, i: nat, r: Replica, v: nat, from: nat, ln: nat, log: Log, commit: nat, votes: set<nat>)
    requires cfg.Valid() && Votes(cfg, i, r, v, ln, log, commit, votes)
    ensures var r' := OnStartViewChange(cfg, i, r, v, from);
            && Votes(cfg, i, r', v, ln, log, commit, votes + {from}) && Keeps(r, r') && r.outbox <= r'.outbox
            && (r'.dvcSent && !r.dvcSent && cfg.Primary(v) != i ==> DoViewChange(v, i, Report(ln, log, commit)) in r'.outbox)
            && (r.dvcSent ==> r'.dvcSent)
  {
    var r1 := r.(svcFrom := r.svcFrom + {from});
    SubsetCount(r.svcFrom, r1.svcFrom);
    var own := r1.dvcFrom[i := ReportOf(r)];
    if !r.dvcSent && |r1.svcFrom| >= cfg.n / 2 && cfg.Primary(v) == i {
      assert own == map[i := Report(ln, log, commit)];
      assert |own.Keys| == |own| && own.Keys == {i};
    }
  }

  lemma FirstHeard(cfg: Config, i: nat, r: Replica, v: nat, from: nat)
    requires v > r.view
    ensures OnStartViewChange(cfg, i, r, v, from) == OnStartViewChange(cfg, i, BeginViewChange(i, r, v), v, from)
  {
  }

  /** A replica times out. */
  lemma Wakes(cfg: Config, s: System, i: nat, ln: nat, log: Log, commit: nat) returns (s': System)
    requires cfg.Valid() && Live(cfg, s) && i < cfg.n && Sits(cfg, s.reps[i], s.reps[i].view, ln, log, commit)
    requires s.reps[i].status == ViewChange || cfg.Primary(s.reps[i].view) != i
    ensures Live(cfg, s') && Only(s, s', {i}) && Voter(cfg, s', i, s.reps[i].view + 1, ln, log, commit, {}) && Keeps(s.reps[i], s'.reps[i])
  {
    var r := s.reps[i];
    s' := Do(cfg, s, i, Timeout);
    Begins(cfg, i, r, r.view + 1, ln, log, commit);
  }

  /** It hears the first vote for a later view. */
  lemma HearsFirst(cfg: Config, s: System, i: nat, v: nat, from: nat, ln: nat, log: Log, commit: nat) returns (s': System)
    requires cfg.Valid() && Live(cfg, s) && i < cfg.n && Sits(cfg, s.reps[i], s.reps[i].view, ln, log, commit) && v > s.reps[i].view
    requires from != i && StartViewChange(v, from) in s.h.msgs
    ensures Live(cfg, s') && Only(s, s', {i}) && Voter(cfg, s', i, v, ln, log, commit, {from}) && Keeps(s.reps[i], s'.reps[i])
  {
    hide OnStartViewChange, Live, Votes, BeginViewChange, Sits;
    assert |s.reps| == cfg.n && s.h.cfg == cfg by { LiveParts(cfg, s); }
    var r := s.reps[i];
    s' := Do(cfg, s, i, Receive(StartViewChange(v, from)));
    Begins(cfg, i, r, v, ln, log, commit);
    FirstHeard(cfg, i, r, v, from);
    var r1 := BeginViewChange(i, r, v);
    Hears(cfg, i, r1, v, from, ln, log, commit, {});
    NotYet(cfg, i, r1, v, ln, log, commit);
    assert {} + {from} == {from};
  }

  lemma NotYet(cfg: Config, i: nat, r: Replica, v: nat, ln: nat, log: Log, commit: nat)
    requires cfg.Valid() && Votes(cfg, i, r, v, ln, log, commit, {}) && r.svcFrom == {}
    ensures !r.dvcSent
  {
  }

  lemma HearsOne(cfg: Config, s: System, i: nat, v: nat, from: nat, ln: nat, log: Log, commit: nat, votes: set<nat>) returns (s': System)
    requires cfg.Valid() && Live(cfg, s) && i < cfg.n && Voter(cfg, s, i, v, ln, log, commit, votes)
    requires from != i && StartViewChange(v, from) in s.h.msgs
    ensures Live(cfg, s') && Only(s, s', {i}) && Voter(cfg, s', i, v, ln, log, commit, votes + {from}) && Keeps(s.reps[i], s'.reps[i])
  {
    hide OnStartViewChange, Live, Votes;
    assert |s.reps| == cfg.n && s.h.cfg == cfg by { LiveParts(cfg, s); }
    var r := s.reps[i];
    s' := Do(cfg, s, i, Receive(StartViewChange(v, from)));
    Hears(cfg, i, r, v, from, ln, log, commit, votes);
  }

  /** And all the votes there are. */
  lemma {:induction false} HearsAll(cfg: Config, s: System, i: nat, v: nat, from: set<nat>, ln: nat, log: Log, commit: nat, votes: set<nat>)
      returns (s': System)
    requires cfg.Valid() && Live(cfg, s) && i < cfg.n && Voter(cfg, s, i, v, ln, log, commit, votes) && i !in from
    requires forall k :: k in from ==> StartViewChange(v, k) in s.h.msgs
    ensures Live(cfg, s') && Only(s, s', {i}) && Voter(cfg, s', i, v, ln, log, commit, votes + from) && Keeps(s.reps[i], s'.reps[i])
    decreases from
  {
    hide Live, Voter;
    if from == {} {
      s' := s;
      assert votes + from == votes;
    } else {
      var k :| k in from;
      var s1 := HearsOne(cfg, s, i, v, k, ln, log, commit, votes);
      s' := HearsAll(cfg, s1, i, v, from - {k}, ln, log, commit, votes + {k});
      assert votes + {k} + (from - {k}) == votes + from;
    }
  }

  /** Its vote leaves, and its report if it made one. */
  lemma Sends(cfg: Config, s: System, i: nat, v: nat, ln: nat, log: Log, commit: nat, votes: set<nat>) returns (s': System)
    requires cfg.Valid() && Live(cfg, s) && i < cfg.n && Voter(cfg, s, i, v, ln, log, commit, votes)
    ensures Live(cfg, s') && Only(s, s', {i}) && Voter(cfg, s', i, v, ln, log, commit, votes) && s'.reps[i] == Written(s.reps[i])
    ensures StartViewChange(v, i) in s'.h.msgs
    ensures s'.reps[i].dvcSent && cfg.Primary(v) != i ==> DoViewChange(v, i, Report(ln, log, commit)) in s'.h.msgs
  {
    s' := Writes(cfg, s, i);
  }

  /** A replica of an earlier view votes. */
  lemma Joins(cfg: Config, s: System, i: nat, v: nat, from: nat, ln: nat, log: Log, commit: nat) returns (s': System)
    requires cfg.Valid() && Live(cfg, s) && i < cfg.n && Sits(cfg, s.reps[i], s.reps[i].view, ln, log, commit) && v > s.reps[i].view
    requires from != i && StartViewChange(v, from) in s.h.msgs
    ensures Live(cfg, s') && Only(s, s', {i}) && Voter(cfg, s', i, v, ln, log, commit, {from}) && StartViewChange(v, i) in s'.h.msgs
    ensures s'.reps[i].disk == Image(v, ln, commit, log) && s'.reps[i].sm == s.reps[i].sm && s'.reps[i].flushed == s.reps[i].flushed
  {
    var s1 := HearsFirst(cfg, s, i, v, from, ln, log, commit);
    s' := Sends(cfg, s1, i, v, ln, log, commit, {from});
    OnlyTwice(s, s1, s', {i}, {i});
    assert {i} + {i} == {i};
    hide Live;
  }

  lemma OnlyTwice(s: System, s1: System, s2: System, a: set<nat>, b: set<nat>)
    requires Only(s, s1, a) && Only(s1, s2, b)
    ensures Only(s, s2, a + b)
  {
  }

  lemma OnlyBoth(s: System, s1: System, s2: System, a: set<nat>, b: set<nat>, who: set<nat>)
    requires Only(s, s1, a) && Only(s1, s2, b) && a <= who && b <= who
    ensures Only(s, s2, who)
  {
  }

  /** It reports, with votes enough. */
  lemma Reports(cfg: Config, s: System, i: nat, v: nat, from: set<nat>, ln: nat, log: Log, commit: nat, votes: set<nat>) returns (s': System)
    requires cfg.Valid() && Live(cfg, s) && i < cfg.n && Voter(cfg, s, i, v, ln, log, commit, votes) && i !in from
    requires forall k :: k in from ==> StartViewChange(v, k) in s.h.msgs
    requires |votes + from| >= cfg.n / 2
    ensures Live(cfg, s') && Only(s, s', {i}) && Voter(cfg, s', i, v, ln, log, commit, votes + from) && s'.reps[i].dvcSent
    ensures cfg.Primary(v) != i ==> DoViewChange(v, i, Report(ln, log, commit)) in s'.h.msgs
    ensures s'.reps[i].disk == Image(v, ln, commit, log) && s'.reps[i].sm == s.reps[i].sm && s'.reps[i].flushed == s.reps[i].flushed
  {
    var s1 := HearsAll(cfg, s, i, v, from, ln, log, commit, votes);
    s' := Sends(cfg, s1, i, v, ln, log, commit, votes + from);
    OnlyTwice(s, s1, s', {i}, {i});
    assert {i} + {i} == {i};
    SubsetCount(votes + from, s'.reps[i].svcFrom);
    hide Live;
  }

  // ---------------------------------------------------------------------------
  // Groups of replicas that hold nothing

  const Nothing := Report(0, [], 0)

  /** Each of `who` votes for view `v`. */
  ghost predicate Voters(cfg: Config, s: System, who: set<nat>, v: nat, from: nat) {
    forall i {:trigger i in who} :: i in who ==> Voter(cfg, s, i, v, 0, [], 0, {from}) && StartViewChange(v, i) in s.h.msgs
  }

  lemma {:induction false} JoinAll(cfg: Config, s: System, who: set<nat>, v: nat, from: nat) returns (s': System)
    requires cfg.Valid() && Live(cfg, s) && from !in who && StartViewChange(v, from) in s.h.msgs
    requires forall i {:trigger i in who} :: i in who ==> i < cfg.n && Sits(cfg, s.reps[i], s.reps[i].view, 0, [], 0) && v > s.reps[i].view
    ensures Live(cfg, s') && Only(s, s', who) && Voters(cfg, s', who, v, from)
    decreases who
  {
    hide Live, Voter, Sits;
    if who == {} {
      s' := s;
    } else {
      var i :| i in who;
      assert |s.reps| == cfg.n by { LiveParts(cfg, s); }
      var s1 := Joins(cfg, s, i, v, from, 0, [], 0);
      assert forall j {:trigger j in who} :: j in who - {i} ==> s1.reps[j] == s.reps[j];
      s' := JoinAll(cfg, s1, who - {i}, v, from);
      OnlyTwice(s, s1, s', {i}, who - {i});
      assert {i} + (who - {i}) == who;
      VoterStays(cfg, s1, s', i, v, 0, [], 0, {from}, who - {i});
    }
  }

  lemma VoterStays(cfg: Config, s: System, s': System, i: nat, v: nat, ln: nat, log: Log, commit: nat, votes: set<nat>, who: set<nat>)
    requires Voter(cfg, s, i, v, ln, log, commit, votes) && Only(s, s', who) && i !in who
    ensures Voter(cfg, s', i, v, ln, log, commit, votes)
  {
    assert s'.reps[i] == s.reps[i];
  }

  /** Each of `who` reported for view `v`. */
  ghost predicate Reporters(cfg: Config, s: System, who: set<nat>, v: nat) {
    forall i {:trigger i in who} :: i in who ==>
      && i < |s.reps| && Sits(cfg, s.reps[i], v, 0, [], 0) && v > 0
      && (cfg.Primary(v) != i ==> DoViewChange(v, i, Nothing) in s.h.msgs)
  }

  lemma ReportsVoters(cfg: Config, s: System, i: nat, v: nat, voters: set<nat>, ln: nat, log: Log, commit: nat, votes: set<nat>) returns (s': System)
    requires cfg.Valid() && Live(cfg, s) && i < cfg.n && Voter(cfg, s, i, v, ln, log, commit, votes) && votes <= voters - {i}
    requires forall k :: k in voters ==> StartViewChange(v, k) in s.h.msgs || k == i
    requires i in voters && |voters| > cfg.n / 2
    ensures Live(cfg, s') && Only(s, s', {i}) && Voter(cfg, s', i, v, ln, log, commit, voters - {i}) && s'.reps[i].dvcSent
    ensures cfg.Primary(v) != i ==> DoViewChange(v, i, Report(ln, log, commit)) in s'.h.msgs
    ensures s'.reps[i].disk == Image(v, ln, commit, log) && s'.reps[i].sm == s.reps[i].sm && s'.reps[i].flushed == s.reps[i].flushed
  {
    hide Live, Voter;
    assert votes + (voters - {i}) == voters - {i};
    s' := Reports(cfg, s, i, v, voters - {i}, ln, log, commit, votes);
  }

  lemma {:induction false} ReportAll(cfg: Config, s: System, who: set<nat>, v: nat, from: nat, voters: set<nat>) returns (s': System)
    requires cfg.Valid() && Live(cfg, s) && Voters(cfg, s, who, v, from) && from !in who && who <= voters && from in voters
    requires (forall k :: k in voters ==> StartViewChange(v, k) in s.h.msgs) && |voters| > cfg.n / 2
    ensures Live(cfg, s') && Only(s, s', who) && Reporters(cfg, s', who, v)
    decreases who
  {
    hide Live, Sits;
    if who == {} {
      s' := s;
    } else {
      var i :| i in who;
      assert i < cfg.n by { LiveParts(cfg, s); }
      var s1 := ReportsVoters(cfg, s, i, v, voters, 0, [], 0, {from});
      forall j | j in who - {i}
        ensures Voter(cfg, s1, j, v, 0, [], 0, {from})
      {
        VoterStays(cfg, s, s1, j, v, 0, [], 0, {from}, {i});
      }
      hide Voter;
      s' := ReportAll(cfg, s1, who - {i}, v, from, voters);
      OnlyTwice(s, s1, s', {i}, who - {i});
      assert {i} + (who - {i}) == who;
      VoterSits(cfg, s1, i, v, 0, [], 0, voters - {i});
      assert s'.reps[i] == s1.reps[i];
    }
  }

  lemma VoterSits(cfg: Config, s: System, i: nat, v: nat, ln: nat, log: Log, commit: nat, votes: set<nat>)
    requires Voter(cfg, s, i, v, ln, log, commit, votes)
    ensures i < |s.reps| && Sits(cfg, s.reps[i], v, ln, log, commit) && ln < v
  {
  }

  // ---------------------------------------------------------------------------
  // The primary of the view

  /** Replica `i` has these reports for view `v`, of which it is to be primary. */
  ghost predicate Gathers(cfg: Config, i: nat, r: Replica, v: nat, log: Log, reports: map<nat, Report>) {
    Sits(cfg, r, v, 0, log, 0) && v > 0 && cfg.Primary(v) == i && r.dvcFrom == reports
  }

  lemma Counts(cfg: Config, s: System, i: nat, v: nat, log: Log, reports: map<nat, Report>, from: nat, d: Report) returns (s': System)
    requires Live(cfg, s) && i < cfg.n && Gathers(cfg, i, s.reps[i], v, log, reports) && from != i
    requires DoViewChange(v, from, d) in s.h.msgs && |reports[from := d]| < cfg.Quorum()
    ensures Live(cfg, s') && Only(s, s', {i}) && Gathers(cfg, i, s'.reps[i], v, log, reports[from := d])
    ensures s'.reps[i] == s.reps[i].(dvcFrom := reports[from := d])
  {
    s' := Do(cfg, s, i, Receive(DoViewChange(v, from, d)));
    hide Live;
  }

  /** `reports` are those of `base` and one of nothing from each of `who`. */
  ghost predicate Adds(reports: map<nat, Report>, base: map<nat, Report>, who: set<nat>) {
    && reports.Keys == base.Keys + who
    && forall j {:trigger reports[j]} :: j in reports ==> reports[j] == if j in base then base[j] else Nothing
  }

  lemma AddsMore(reports: map<nat, Report>, base: map<nat, Report>, j: nat, who: set<nat>)
    requires j in who && j !in base && Adds(reports, base[j := Nothing], who - {j})
    ensures Adds(reports, base, who)
  {
  }

  lemma Fewer(cfg: Config, base: map<nat, Report>, j: nat, who: set<nat>)
    requires j in who && |base.Keys + who| < cfg.Quorum()
    ensures |base[j := Nothing]| < cfg.Quorum() && base[j := Nothing].Keys + (who - {j}) == base.Keys + who
  {
    var more := base[j := Nothing];
    assert |more| == |more.Keys|;
    SubsetCount(more.Keys, base.Keys + who);
  }

  lemma {:induction false} CountAll(cfg: Config, s: System, i: nat, v: nat, log: Log, base: map<nat, Report>, who: set<nat>)
      returns (s': System, reports: map<nat, Report>)
    requires Live(cfg, s) && i < cfg.n && i < |s.reps| && Gathers(cfg, i, s.reps[i], v, log, base) && i !in who && base.Keys !! who
    requires forall j :: j in who ==> DoViewChange(v, j, Nothing) in s.h.msgs
    requires |base.Keys + who| < cfg.Quorum()
    ensures Live(cfg, s') && Only(s, s', {i}) && Adds(reports, base, who) && Gathers(cfg, i, s'.reps[i], v, log, reports)
    ensures s'.reps[i] == s.reps[i].(dvcFrom := reports)
    decreases who
  {
    hide Live, Gathers, Adds;
    if who == {} {
      s', reports := s, base;
      assert Adds(base, base, {}) by { AddsNone(base); }
      assert s.reps[i].dvcFrom == base by { GatheredSo(cfg, i, s.reps[i], v, log, base); }
    } else {
      var j :| j in who;
      Fewer(cfg, base, j, who);
      var s1 := Counts(cfg, s, i, v, log, base, j, Nothing);
      s', reports := CountAll(cfg, s1, i, v, log, base[j := Nothing], who - {j});
      AddsMore(reports, base, j, who);
    }
  }

  lemma AddsNone(base: map<nat, Report>)
    ensures Adds(base, base, {})
  {
  }

  lemma GatheredSo(cfg: Config, i: nat, r: Replica, v: nat, log: Log, reports: map<nat, Report>)
    requires Gathers(cfg, i, r, v, log, reports)
    ensures r.dvcFrom == reports
  {
  }

  /** The log that ranks highest among these reports, and what they say is committed. */
  ghost predicate Highest(cfg: Config, reports: map<nat, Report>, log: Log, commit: nat) {
    && (forall j :: j in reports ==> j < cfg.n)
    && (exists j :: j in reports && reports[j].log == log && reports[j].commit <= commit)
    && (exists j :: j in reports && reports[j].commit == commit)
    && (forall j :: j in reports ==> reports[j].commit <= commit)
    && (forall b {:trigger reports[b]} :: b in reports && (forall j :: j in reports ==> Ranks(reports[b], reports[j])) ==> reports[b].log == log)
  }

  lemma HighestIs(cfg: Config, reports: map<nat, Report>, log: Log, commit: nat)
    requires Highest(cfg, reports, log, commit)
    ensures var best := Best(reports, cfg.n); best.Some? && best.value in reports && reports[best.value].log == log
    ensures MaxCommit(reports, cfg.n) == commit
  {
    hide Best, MaxCommit;
    var best := Best(reports, cfg.n);
    assert forall j :: j in reports ==> Ranks(reports[best.value], reports[j]);
    var j :| j in reports && reports[j].commit == commit;
    assert commit <= MaxCommit(reports, cfg.n);
  }

  /** Replica `i` leads view `v`, with nothing committed; `acks` acknowledged its one entry. */
  ghost predicate Leads(cfg: Config, i: nat, r: Replica, v: nat, log: Log, acks: set<nat>) {
    && Sits(cfg, r, v, v, log, 0) && cfg.Primary(v) == i
    && forall j {:trigger r.acked[j]} :: 0 <= j < |r.acked| ==> r.acked[j] == if j in acks then 1 else 0
  }

  lemma StartsWith(cfg: Config, i: nat, r: Replica, v: nat, reports: map<nat, Report>, log: Log)
    requires Gathers(cfg, i, r, v, r.log, reports) && Highest(cfg, reports, log, 0)
    ensures var r' := TryStartView(cfg, i, r);
            Leads(cfg, i, r', v, log, {}) && Keeps(r, r') && StartView(v, log, 0) in r'.outbox && r.early == r'.early
  {
    HighestIs(cfg, reports, log, 0);
    hide Best, MaxCommit, Highest;
    assert r.log[..0] + Drop(log, 0) == log;
  }

  /** The last report comes, and the view starts. */
  lemma StartsView(cfg: Config, s: System, i: nat, v: nat, own: Log, reports: map<nat, Report>, from: nat, d: Report, log: Log) returns (s': System)
    requires Live(cfg, s) && i < cfg.n && Gathers(cfg, i, s.reps[i], v, own, reports) && from != i
    requires DoViewChange(v, from, d) in s.h.msgs && |reports[from := d]| >= cfg.Quorum() && Highest(cfg, reports[from := d], log, 0)
    ensures Live(cfg, s') && Only(s, s', {i}) && Leads(cfg, i, s'.reps[i], v, log, {}) && Keeps(s.reps[i], s'.reps[i])
    ensures StartView(v, log, 0) in s'.reps[i].outbox && s'.reps[i].early == s.reps[i].early
  {
    hide Live, OnDoViewChange, TryStartView, Highest;
    assert |s.reps| == cfg.n by { LiveParts(cfg, s); }
    s' := Do(cfg, s, i, Receive(DoViewChange(v, from, d)));
    var r := s.reps[i].(dvcFrom := reports[from := d]);
    LastReport(cfg, i, s.reps[i], v, own, reports, from, d);
    StartsWith(cfg, i, r, v, reports[from := d], log);
  }

  lemma LastReport(cfg: Config, i: nat, r: Replica, v: nat, own: Log, reports: map<nat, Report>, from: nat, d: Report)
    requires Gathers(cfg, i, r, v, own, reports) && |reports[from := d]| >= cfg.Quorum()
    ensures OnDoViewChange(cfg, i, r, v, from, d) == TryStartView(cfg, i, r.(dvcFrom := reports[from := d]))
  {
  }
}
