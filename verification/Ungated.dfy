/** Without the gate, a crash breaks agreement in a cluster of any size: a primary answers in a view it
    holds in memory only, crashes, and starts the same view again with another log. */
module Ungated {
  import opened Types
  import opened Quorums
  import opened Protocol
  import opened Cluster
  import opened Runs
  import opened Electing
  import opened Committing

  // The entries the two logs of view 1 start with.
  const X := Register(1)
  const Y := Register(2)

  const HasX := Report(0, [X], 0)

  /** Replicas that crash, and owners that send the primary's early messages at once. */
  predicate Leaky(cfg: Config) { cfg.Valid() && cfg.crashes && !cfg.gated }

  /** Replicas that go along with view 1: with its primary and one more they make a quorum. */
  ghost predicate Spare(cfg: Config, g: set<nat>) {
    cfg.Valid() && |g| == cfg.Quorum() - 2 && forall j :: j in g ==> 1 < j < cfg.Quorum()
  }

  lemma SomeSpare(cfg: Config) returns (g: set<nat>)
    requires cfg.Valid()
    ensures Spare(cfg, g)
  {
    Primaries(cfg);
    g := Range(2, cfg.Quorum());
  }

  /** The replicas that vote and report for view 1, with its primary a quorum. */
  function Group(cfg: Config, g: set<nat>): set<nat> { g + {cfg.Quorum()} }

  lemma Primaries(cfg: Config)
    requires cfg.Valid()
    ensures cfg.Primary(0) == 0 && cfg.Primary(1) == 1 && 2 <= cfg.Quorum() < cfg.n && cfg.Quorum() - 1 == cfg.n / 2
  {
  }

  lemma Sizes(cfg: Config, g: set<nat>)
    requires Spare(cfg, g)
    ensures |Group(cfg, g)| == cfg.Quorum() - 1 && |{1} + Group(cfg, g)| == cfg.Quorum() && |{1} + g| == cfg.Quorum() - 1
    ensures forall j :: j in Group(cfg, g) ==> 1 < j < cfg.n
  {
    Primaries(cfg);
    Joined(cfg.Quorum(), g);
    assert {cfg.Quorum()} + g == Group(cfg, g);
    Joined(1, Group(cfg, g));
    Joined(1, g);
  }

  /** The group reported for view 1, and all that vote for it have voted. */
  ghost predicate Reported(cfg: Config, g: set<nat>, s: System) {
    Reporters(cfg, s, Group(cfg, g), 1) && forall k :: k in {1} + Group(cfg, g) ==> StartViewChange(1, k) in s.h.msgs
  }

  /** Replica 1, which is to lead view 1, voted for it with nothing on disk. */
  ghost predicate Ready(cfg: Config, s: System) {
    Voter(cfg, s, 1, 1, 0, [], 0, {}) && s.reps[1].disk == Image(1, 0, 0, []) && s.reps[1].flushed == []
  }

  lemma NewSits(cfg: Config)
    ensures Sits(cfg, New(cfg), 0, 0, [], 0) && New(cfg).flushed == [] && New(cfg).status == Normal && New(cfg).view == 0
  {
  }

  lemma AppendsX(cfg: Config, s: System) returns (s': System)
    requires cfg.Valid() && Live(cfg, s) && |s.reps| == cfg.n && s.reps[0] == New(cfg)
    ensures Live(cfg, s') && Only(s, s', {0}) && Sits(cfg, s'.reps[0], 0, 0, [X], 0)
  {
    s' := Do(cfg, s, 0, ClientEntry(X));
    assert [] + [X] == [X];
    hide Live;
  }

  /** Replica 1 votes for view 1. */
  lemma FirstVote(cfg: Config, s: System) returns (s': System)
    requires cfg.Valid() && Live(cfg, s) && |s.reps| == cfg.n && s.reps[1] == New(cfg)
    ensures Live(cfg, s') && Only(s, s', {1}) && Ready(cfg, s') && StartViewChange(1, 1) in s'.h.msgs
  {
    NewSits(cfg);
    hide Live, New, Sits;
    var s1 := Wakes(cfg, s, 1, 0, [], 0);
    s' := Electing.Sends(cfg, s1, 1, 1, 0, [], 0, {});
    WrittenDisk(cfg, s1, 1, 1, 0, [], 0, {});
  }

  lemma WrittenDisk(cfg: Config, s: System, i: nat, v: nat, ln: nat, log: Log, commit: nat, votes: set<nat>)
    requires Voter(cfg, s, i, v, ln, log, commit, votes)
    ensures Snapshot(s.reps[i]) == Image(v, ln, commit, log)
  {
  }

  /** Then the group votes and reports. */
  lemma GroupReports(cfg: Config, g: set<nat>, s: System) returns (s': System)
    requires Spare(cfg, g) && Live(cfg, s) && |s.reps| == cfg.n && StartViewChange(1, 1) in s.h.msgs
    requires forall j {:trigger s.reps[j]} :: j in Group(cfg, g) ==> s.reps[j] == New(cfg)
    ensures Live(cfg, s') && Only(s, s', Group(cfg, g)) && Reported(cfg, g, s')
  {
    Sizes(cfg, g);
    NewSits(cfg);
    hide Live, New, Sits, Voter, Reporters;
    var s1 := JoinAll(cfg, s, Group(cfg, g), 1, 1);
    assert forall k :: k in {1} + Group(cfg, g) ==> StartViewChange(1, k) in s1.h.msgs;
    s' := ReportAll(cfg, s1, Group(cfg, g), 1, 1, {1} + Group(cfg, g));
    OnlyTwice(s, s1, s', Group(cfg, g), Group(cfg, g));
    assert Group(cfg, g) + Group(cfg, g) == Group(cfg, g);
  }

  /** And replica 0, with X in its log. */
  lemma ZeroReports(cfg: Config, g: set<nat>, s: System) returns (s': System)
    requires Spare(cfg, g) && Live(cfg, s) && |s.reps| == cfg.n && Sits(cfg, s.reps[0], 0, 0, [X], 0)
    requires forall k :: k in {1} + Group(cfg, g) ==> StartViewChange(1, k) in s.h.msgs
    ensures Live(cfg, s') && Only(s, s', {0}) && Voter(cfg, s', 0, 1, 0, [X], 0, {}) && DoViewChange(1, 0, HasX) in s'.h.msgs
  {
    Sizes(cfg, g);
    assert s.reps[0].view == 0;
    hide Live, Sits, Group;
    var s1 := HearsFirst(cfg, s, 0, 1, 1, 0, [X], 0);
    var voters := {0, 1} + Group(cfg, g);
    SubsetCount({1} + Group(cfg, g), voters);
    s' := ReportsVoters(cfg, s1, 0, 1, voters, 0, [X], 0, {1});
    OnlyTwice(s, s1, s', {0}, {0});
    assert {0} + {0} == {0};
  }

  /** Replica 1 counts its own report and those of the group but one. */
  lemma Gathering(cfg: Config, g: set<nat>, s: System) returns (s': System, reports: map<nat, Report>)
    requires Spare(cfg, g) && Live(cfg, s) && |s.reps| == cfg.n && Reported(cfg, g, s) && Ready(cfg, s)
    ensures Live(cfg, s') && Only(s, s', {1}) && Gathers(cfg, 1, s'.reps[1], 1, [], reports)
    ensures Adds(reports, map[1 := Nothing], g) && Electing.Keeps(s.reps[1], s'.reps[1])
  {
    Sizes(cfg, g);
    var s1 := OwnReport(cfg, g, s);
    hide Live, Ready, Gathers, Sits, Adds, Group;
    assert forall j :: j in g ==> DoViewChange(1, j, Nothing) in s1.h.msgs by { Told(cfg, g, s); }
    var own := map[1 := Nothing];
    assert own.Keys == {1};
    s', reports := CountAll(cfg, s1, 1, 1, [], own, g);
    OnlyTwice(s, s1, s', {1}, {1});
    assert {1} + {1} == {1};
  }

  lemma Told(cfg: Config, g: set<nat>, s: System)
    requires Spare(cfg, g) && Reported(cfg, g, s)
    ensures forall j :: j in Group(cfg, g) ==> DoViewChange(1, j, Nothing) in s.h.msgs && j != 1
    ensures forall j :: j in g ==> DoViewChange(1, j, Nothing) in s.h.msgs
  {
    Primaries(cfg);
    GroupApart(cfg, g);
    hide Spare, Sits, Config.Primary, Config.Quorum;
    assert g <= Group(cfg, g);
  }

  lemma OwnReport(cfg: Config, g: set<nat>, s: System) returns (s': System)
    requires Spare(cfg, g) && Live(cfg, s) && |s.reps| == cfg.n && Reported(cfg, g, s) && Ready(cfg, s)
    ensures Live(cfg, s') && Only(s, s', {1}) && Gathers(cfg, 1, s'.reps[1], 1, [], map[1 := Nothing]) && Electing.Keeps(s.reps[1], s'.reps[1])
  {
    Primaries(cfg);
    assert |Group(cfg, g)| == cfg.n / 2 && 1 !in Group(cfg, g);
    hide Live, Reporters, Votes, Group;
    s' := HearsAll(cfg, s, 1, 1, Group(cfg, g), 0, [], 0, {});
    assert {} + Group(cfg, g) == Group(cfg, g);
    OwnGathers(cfg, s', Group(cfg, g));
  }

  lemma OwnGathers(cfg: Config, s: System, votes: set<nat>)
    requires Voter(cfg, s, 1, 1, 0, [], 0, votes) && |votes| >= cfg.n / 2 && cfg.Primary(1) == 1
    ensures Gathers(cfg, 1, s.reps[1], 1, [], map[1 := Nothing])
  {
    SubsetCount(votes, s.reps[1].svcFrom);
  }

  // ---------------------------------------------------------------------------
  // View 1, twice

  /** One more report, of replica `j`, makes a quorum. */
  lemma LastOne(cfg: Config, g: set<nat>, reports: map<nat, Report>, j: nat, d: Report)
    requires Spare(cfg, g) && Adds(reports, map[1 := Nothing], g) && j != 1 && j !in g && j < cfg.n
    ensures |reports[j := d]| == cfg.Quorum() && forall i {:trigger reports[j := d][i]} :: i in reports[j := d] ==> i < cfg.n && (reports[j := d][i] == if i == j then d else Nothing)
  {
    Sizes(cfg, g);

    var all := reports[j := d];
    assert map[1 := Nothing].Keys == {1};
    assert all.Keys == {j} + ({1} + g);
    assert |all| == |all.Keys|;
    Joined(j, {1} + g);
    assert forall i :: i in g ==> i < cfg.n by { GroupApart(cfg, g); }
  }

  /** The longest of reports of nothing and one of `log`. */
  lemma Longest(cfg: Config, all: map<nat, Report>, j: nat, log: Log)
    requires j in all && forall i :: i in all ==> i < cfg.n && (all[i] == if i == j then Report(0, log, 0) else Nothing)
    ensures Highest(cfg, all, log, 0)
  {
    assert all[j].log == log && all[j].commit == 0;
    forall b | b in all && forall i :: i in all ==> Ranks(all[b], all[i])
      ensures all[b].log == log
    {
      assert Ranks(all[b], all[j]);
    }
  }

  /** Replica 1 starts view 1 once replica `j` reports too. */
  lemma StartsFrom(cfg: Config, g: set<nat>, s: System, j: nat, log: Log) returns (s': System)
    requires Spare(cfg, g) && Live(cfg, s) && |s.reps| == cfg.n && Reported(cfg, g, s) && Ready(cfg, s)
    requires j != 1 && j !in g && j < cfg.n && DoViewChange(1, j, Report(0, log, 0)) in s.h.msgs
    ensures Live(cfg, s') && Only(s, s', {1}) && Leads(cfg, 1, s'.reps[1], 1, log, {}) && Electing.Keeps(s.reps[1], s'.reps[1])
  {
    hide Live, Reported, Ready, Gathers, Adds, Leads, Highest;
    var s1, reports := Gathering(cfg, g, s);
    LastOne(cfg, g, reports, j, Report(0, log, 0));
    Longest(cfg, reports[j := Report(0, log, 0)], j, log);
    s' := StartsView(cfg, s1, 1, 1, [], reports, j, Report(0, log, 0), log);
    OnlyTwice(s, s1, s', {1}, {1});
    assert {1} + {1} == {1};
  }

  lemma ComesBack(cfg: Config, s: System) returns (s': System)
    requires cfg.Valid() && cfg.crashes && Live(cfg, s) && |s.reps| == cfg.n
    requires s.reps[1].disk == Image(1, 0, 0, []) && s.reps[1].flushed == []
    ensures Live(cfg, s') && Only(s, s', {1}) && Ready(cfg, s')
  {
    s' := Crashes(cfg, s, 1);
    hide Live;
    Restarted(cfg);
  }

  lemma Restarted(cfg: Config)
    requires cfg.Valid()
    ensures var r := Restart(cfg, 1, Image(1, 0, 0, []), []);
            && Votes(cfg, 1, r, 1, 0, [], 0, {}) && StartViewChange(1, 1) in r.outbox
            && r.disk == Image(1, 0, 0, []) && r.flushed == []
  {
  }

  /** What replica 0 acknowledges as X of view 1. */
  lemma Leaks(cfg: Config, s: System) returns (s': System)
    requires Leaky(cfg) && Live(cfg, s) && |s.reps| == cfg.n && Leads(cfg, 1, s.reps[1], 1, [X], {}) && Voter(cfg, s, 0, 1, 0, [X], 0, {})
    ensures Live(cfg, s') && Only(s, s', {0, 1}) && Electing.Keeps(s.reps[1], s'.reps[1])
    ensures Sits(cfg, s'.reps[0], 1, 1, [X], 0) && PrepareOk(1, 1, 0) in s'.h.msgs
  {
    Primaries(cfg);
    assert Lags(cfg, s.reps[0], 1) && Sits(cfg, s.reps[1], 1, 1, [X], 0) && s.reps[0].catchingUp.None? && s.reps[0].view == 1;
    hide Live, Sits, Lags, Leads, Voter;
    var s1 := Tells(cfg, s, 1, 1, [X], 0);
    var s2 := Asks(cfg, s1, 0, 1, 0);
    assert Sits(cfg, s2.reps[1], 1, 1, [X], 0) by { EarlySits(cfg, s.reps[1], s1.reps[1], 1, 1, [X], 0); }
    var s3 := Answers(cfg, s2, 1, 1, [X], 0, 0);
    s' := CatchesUp(cfg, s3, 0, 1, X);
    OnlyTwice(s, s1, s2, {1}, {0});
    OnlyTwice(s, s2, s3, {1} + {0}, {1});
    OnlyTwice(s, s3, s', {1} + {0} + {1}, {0});
    assert {1} + {0} + {1} + {0} == {0, 1};
  }

  lemma EarlySits(cfg: Config, r: Replica, r': Replica, v: nat, ln: nat, log: Log, commit: nat)
    requires Sits(cfg, r, v, ln, log, commit) && r' == r.(early := r'.early)
    ensures Sits(cfg, r', v, ln, log, commit)
  {
  }

  /** Replica 1 appends Y, its write lands, and it announces that as the log of view 1. */
  lemma LeadsY(cfg: Config, g: set<nat>, s: System) returns (s': System)
    requires Spare(cfg, g) && Live(cfg, s) && |s.reps| == cfg.n && Reported(cfg, g, s) && Leads(cfg, 1, s.reps[1], 1, [], {})
    ensures Live(cfg, s') && Only(s, s', {1}) && Leads(cfg, 1, s'.reps[1], 1, [Y], {1}) && StartView(1, [Y], 0) in s'.h.msgs
    ensures s'.reps[1].durable == 1 && s'.reps[1].changed.None? && s'.reps[1].disk.lastNormal == 1
  {
    Sizes(cfg, g);
    var q := cfg.Quorum();
    hide Live, Leads, Reporters;
    var s1 := Appends(cfg, s, 1, 1, [], Y);
    assert [] + [Y] == [Y];
    assert StartViewChange(1, q) in s1.h.msgs;
    var s2 := Announces(cfg, s1, 1, 1, [Y], q);
    s' := LandsEntry(cfg, s2, 1, 1, Y);
    assert s'.reps[1].disk.lastNormal == 1 by { LeadsIn(cfg, 1, s'.reps[1], 1, [Y], {1}); }
    OnlyTwice(s, s1, s2, {1}, {1});
    OnlyTwice(s, s2, s', {1} + {1}, {1});
    assert {1} + {1} + {1} == {1};
  }

  lemma LeadsIn(cfg: Config, i: nat, r: Replica, v: nat, log: Log, acks: set<nat>)
    requires Leads(cfg, i, r, v, log, acks)
    ensures r.lastNormal == v
  {
  }

  /** It commits Y by the acknowledgements of the group but one, and replica 0's of X. */
  lemma CommitsY(cfg: Config, g: set<nat>, s: System) returns (s': System)
    requires Spare(cfg, g) && Live(cfg, s) && |s.reps| == cfg.n && Leads(cfg, 1, s.reps[1], 1, [Y], {1}) && StartView(1, [Y], 0) in s.h.msgs
    requires s.reps[1].durable == 1 && s.reps[1].changed.None? && Reporters(cfg, s, Group(cfg, g), 1) && PrepareOk(1, 1, 0) in s.h.msgs
    ensures Live(cfg, s') && Only(s, s', {1} + g) && Commits(cfg, 1, s'.reps[1], 1, Y) && s'.reps[1].disk == s.reps[1].disk
  {
    assert cfg.Primary(1) == 1 by { Primaries(cfg); }
    MostLag(cfg, g, s);
    hide Live, Leads, Lags, Reporters, Commits, Spare;
    assert forall i {:trigger i in g} :: i in g ==> i < cfg.n && i != 1 by { GroupApart(cfg, g); Primaries(cfg); }
    var s1 := FollowAll(cfg, s, g, 1, Y);
    s' := CountsMost(cfg, g, s1);
    OnlyTwice(s, s1, s', g, {1});
    assert g + {1} == {1} + g;
  }

  lemma CountsMost(cfg: Config, g: set<nat>, s: System) returns (s': System)
    requires Spare(cfg, g) && Live(cfg, s) && |s.reps| == cfg.n && Leads(cfg, 1, s.reps[1], 1, [Y], {1})
    requires s.reps[1].durable == 1 && s.reps[1].changed.None? && PrepareOk(1, 1, 0) in s.h.msgs
    requires forall i {:trigger i in g} :: i in g ==> PrepareOk(1, 1, i) in s.h.msgs
    ensures Live(cfg, s') && Only(s, s', {1}) && Commits(cfg, 1, s'.reps[1], 1, Y) && s'.reps[1].disk == s.reps[1].disk
  {
    Sizes(cfg, g);
    GroupApart(cfg, g);
    Joined(0, {1} + g);
    hide Live, Leads, Commits, Spare;
    assert {1} + g + {0} == {0} + ({1} + g);
    var s1 := CountAcks(cfg, s, 1, 1, Y, {1}, g);
    s' := CommitsLast(cfg, s1, 1, 1, Y, {1} + g, 0);
    OnlyTwice(s, s1, s', {1}, {1});
    assert {1} + {1} == {1};
  }

  lemma MostLag(cfg: Config, g: set<nat>, s: System)
    requires Spare(cfg, g) && Reporters(cfg, s, Group(cfg, g), 1)
    ensures forall i {:trigger i in g} :: i in g ==> i < |s.reps| && cfg.Primary(1) != i && Lags(cfg, s.reps[i], 1)
  {
    Primaries(cfg);
    GroupApart(cfg, g);
    hide Spare, Config.Primary, Config.Quorum;
    assert g <= Group(cfg, g);
  }

  // ---------------------------------------------------------------------------
  // The run

  /** Replica 0 appends X, and all vote and report for view 1. */
  lemma Opening(cfg: Config, g: set<nat>) returns (s: System)
    requires Spare(cfg, g)
    ensures Live(cfg, s) && |s.reps| == cfg.n && Reported(cfg, g, s) && Ready(cfg, s)
    ensures Voter(cfg, s, 0, 1, 0, [X], 0, {}) && DoViewChange(1, 0, HasX) in s.h.msgs
  {
    Sizes(cfg, g);
    Beginning(cfg);
    hide Live, Initial, New, Sits, Voter, Reporters;
    assert |Initial(cfg).reps| == cfg.n by { LiveParts(cfg, Initial(cfg)); }
    var s1 := AppendsX(cfg, Initial(cfg));
    var s2 := FirstVote(cfg, s1);
    var s3 := GroupReports(cfg, g, s2);
    assert Ready(cfg, s3) by { VoterStays(cfg, s2, s3, 1, 1, 0, [], 0, {}, Group(cfg, g)); }
    s := ZeroReports(cfg, g, s3);
    VoterStays(cfg, s3, s, 1, 1, 0, [], 0, {}, {0});
    assert Reported(cfg, g, s) by { StillReported(cfg, g, s3, s, {0}); }
  }

  lemma StillReported(cfg: Config, g: set<nat>, s: System, s': System, who: set<nat>)
    requires Reported(cfg, g, s) && Only(s, s', who) && who !! Group(cfg, g)
    ensures Reported(cfg, g, s')
  {
    assert forall i {:trigger s'.reps[i]} :: i in Group(cfg, g) ==> s'.reps[i] == s.reps[i];
  }

  /** Replica 1 led view 1 with X, and leads it again with nothing. */
  lemma LeadsTwice(cfg: Config, g: set<nat>) returns (s: System)
    requires Leaky(cfg) && Spare(cfg, g)
    ensures Live(cfg, s) && |s.reps| == cfg.n && Reported(cfg, g, s) && Leads(cfg, 1, s.reps[1], 1, [], {})
    ensures Sits(cfg, s.reps[0], 1, 1, [X], 0) && PrepareOk(1, 1, 0) in s.h.msgs
  {
    Primaries(cfg);
    GroupApart(cfg, g);
    hide Live, Sits, Voter, Reported, Ready, Leads, Group, Spare;
    var s0 := Opening(cfg, g);
    var s1 := StartsFrom(cfg, g, s0, 0, [X]);
    assert Voter(cfg, s1, 0, 1, 0, [X], 0, {}) by { VoterStays(cfg, s0, s1, 0, 1, 0, [X], 0, {}, {1}); }
    assert s1.reps[1].disk == Image(1, 0, 0, []) && s1.reps[1].flushed == [] by { ReadyDisk(cfg, s0); }
    var s2 := Leaks(cfg, s1);
    var s3 := ComesBack(cfg, s2);
    StillReported(cfg, g, s0, s1, {1});
    StillReported(cfg, g, s1, s2, {0, 1});
    StillReported(cfg, g, s2, s3, {1});
    assert DoViewChange(1, cfg.Quorum(), Nothing) in s3.h.msgs by { LastReported(cfg, g, s3); }
    s := StartsFrom(cfg, g, s3, cfg.Quorum(), []);
    StillReported(cfg, g, s3, s, {1});
  }

  /** Two replicas commit different entries at op 1, once one of them crashed after it had sent of a
      view that its disk did not record. */
  lemma GateIsNeeded(cfg: Config) returns (s: System)
    requires Leaky(cfg)
    ensures Live(cfg, s) && |s.reps| == cfg.n
    ensures s.reps[0].commit == s.reps[1].commit == 1 && s.reps[0].log == [X] && s.reps[1].log == [Y]
  {
    Primaries(cfg);
    hide Live, Sits, Reported, Leads, Commits, Group, Spare;
    var g := SomeSpare(cfg);
    var s0 := LeadsTwice(cfg, g);
    var s1 := LeadsY(cfg, g, s0);
    assert Reported(cfg, g, s1) by { StillReported(cfg, g, s0, s1, {1}) by { GroupApart(cfg, g); } }
    s := BothCommit(cfg, g, s1);
  }

  lemma BothCommit(cfg: Config, g: set<nat>, s: System) returns (s': System)
    requires Leaky(cfg) && Spare(cfg, g) && Live(cfg, s) && |s.reps| == cfg.n && Reported(cfg, g, s) && Leads(cfg, 1, s.reps[1], 1, [Y], {1})
    requires StartView(1, [Y], 0) in s.h.msgs && PrepareOk(1, 1, 0) in s.h.msgs && Sits(cfg, s.reps[0], 1, 1, [X], 0)
    requires s.reps[1].durable == 1 && s.reps[1].changed.None?
    ensures Live(cfg, s') && |s'.reps| == cfg.n
    ensures s'.reps[0].commit == s'.reps[1].commit == 1 && s'.reps[0].log == [X] && s'.reps[1].log == [Y]
  {
    Primaries(cfg);
    hide Live, Sits, Reported, Leads, Commits, Group, Spare;
    ReportedSo(cfg, g, s);
    var s1 := CommitsY(cfg, g, s);
    CommitsSits(cfg, s1);
    assert s1.reps[0] == s.reps[0] by { assert 0 !in {1} + g by { GroupApart(cfg, g); } }
    var s2 := Tells(cfg, s1, 1, 1, [Y], 1);
    s' := IsTold(cfg, s2, 0, 1, X);
  }

  lemma LastReported(cfg: Config, g: set<nat>, s: System)
    requires Spare(cfg, g) && Reported(cfg, g, s)
    ensures DoViewChange(1, cfg.Quorum(), Nothing) in s.h.msgs
  {
    Primaries(cfg);
    assert cfg.Quorum() in Group(cfg, g);
  }

  lemma ReadyDisk(cfg: Config, s: System)
    requires Ready(cfg, s)
    ensures 1 < |s.reps| && s.reps[1].disk == Image(1, 0, 0, []) && s.reps[1].flushed == []
  {
  }

  lemma GroupApart(cfg: Config, g: set<nat>)
    requires Spare(cfg, g)
    ensures forall j :: j in Group(cfg, g) ==> 1 < j <= cfg.Quorum()
    ensures forall j :: j in g ==> 1 < j < cfg.Quorum()
  {
  }

  lemma ReportedSo(cfg: Config, g: set<nat>, s: System)
    requires Reported(cfg, g, s)
    ensures Reporters(cfg, s, Group(cfg, g), 1)
  {
  }

  lemma CommitsSits(cfg: Config, s: System)
    requires 1 < |s.reps| && Commits(cfg, 1, s.reps[1], 1, Y)
    ensures Sits(cfg, s.reps[1], 1, 1, [Y], 1) && s.reps[1].commit == 1 && s.reps[1].log == [Y]
  {
  }
}
