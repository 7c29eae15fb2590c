/** A checkpoint that is durable before the write of the view it came with breaks agreement, gate or no
    gate, wherever a quorum can do without two replicas.  One restores what view 3 committed, crashes
    before its write, and reports it for view 2 as a commit number of the view its disk was last normal
    in.  View 2 starts from a log that ranks higher, and takes that commit number for its own entries. */
module EarlyRestore {
  import opened Types
  import opened Quorums
  import opened Protocol
  import opened Cluster
  import opened Runs
  import opened Electing
  import opened Committing

  // Entries of view 0 that none but its primary holds, and the one that view 3 commits.
  const X1 := Register(1)
  const X2 := Register(2)
  const Y := Register(3)

  const XX := Report(0, [X1, X2], 0)
  const R1 := Report(1, [], 0)
  const RY := Report(0, [Y], 1)

  /** Replicas that crash, and checkpoints restored at once. */
  predicate Loose(cfg: Config) { cfg.n >= 5 && cfg.crashes && !cfg.guarded }

  /** Replicas that go along with views 1, 2 and 3: with three more they make a quorum. */
  ghost predicate Spare(cfg: Config, g: set<nat>) {
    cfg.n >= 5 && |g| == cfg.Quorum() - 3 && forall j :: j in g ==> 5 <= j < cfg.n
  }

  lemma SomeSpare(cfg: Config) returns (g: set<nat>)
    requires cfg.n >= 5
    ensures Spare(cfg, g)
  {
    Primaries(cfg);
    g := Range(5, cfg.Quorum() + 2);
  }

  lemma Primaries(cfg: Config)
    requires cfg.n >= 5
    ensures cfg.Primary(0) == 0 && cfg.Primary(1) == 1 && cfg.Primary(2) == 2 && cfg.Primary(3) == 3
    ensures cfg.Quorum() == cfg.n / 2 + 1 >= 3 && cfg.Quorum() + 1 < cfg.n
  {
  }

  lemma Three(cfg: Config, g: set<nat>, a: nat, b: nat, c: nat)
    requires Spare(cfg, g) && a < b < c < 5
    ensures |{a, b, c} + g| == cfg.Quorum() && |{a, b} + g| == cfg.Quorum() - 1 == cfg.n / 2 && |{a} + g| == cfg.Quorum() - 2
  {
    Primaries(cfg);

    Joined(a, g);
    Joined(b, {a} + g);
    Joined(c, {b} + ({a} + g));
    assert {c} + ({b} + ({a} + g)) == {a, b, c} + g;
    assert {b} + ({a} + g) == {a, b} + g;
  }

  // ---------------------------------------------------------------------------
  // What the reports for a view come to

  /** Replica `i` counts its own report of nothing. */
  lemma OwnReport(cfg: Config, s: System, i: nat, v: nat, group: set<nat>) returns (s': System)
    requires cfg.Valid() && Live(cfg, s) && |s.reps| == cfg.n && i < cfg.n && cfg.Primary(v) == i && i !in group && |group| >= cfg.n / 2
    requires Voter(cfg, s, i, v, 0, [], 0, {}) && forall k :: k in group ==> StartViewChange(v, k) in s.h.msgs
    ensures Live(cfg, s') && Only(s, s', {i}) && Gathers(cfg, i, s'.reps[i], v, [], map[i := Nothing])
  {
    hide Live, Votes;
    s' := HearsAll(cfg, s, i, v, group, 0, [], 0, {});
    assert {} + group == group;
    Owned(cfg, s', i, v, group);
  }

  lemma Owned(cfg: Config, s: System, i: nat, v: nat, votes: set<nat>)
    requires Voter(cfg, s, i, v, 0, [], 0, votes) && |votes| >= cfg.n / 2 && cfg.Primary(v) == i
    ensures Gathers(cfg, i, s.reps[i], v, [], map[i := Nothing])
  {
    SubsetCount(votes, s.reps[i].svcFrom);
  }

  /** Reports of nothing from replica `i` and `who`, of `d` from `j`. */
  ghost predicate Mixed(reports: map<nat, Report>, i: nat, who: set<nat>, j: nat, d: Report) {
    && reports.Keys == {i, j} + who
    && forall k {:trigger reports[k]} :: k in reports ==> reports[k] == if k == j then d else Nothing
  }

  /** Replica `i` counts its own report, that of `j`, and those of the group. */
  lemma Gathering(cfg: Config, g: set<nat>, s: System, i: nat, v: nat, j: nat, d: Report, votes: set<nat>) returns (s': System, reports: map<nat, Report>)
    requires Spare(cfg, g) && Live(cfg, s) && |s.reps| == cfg.n && i < 5 && j < 5 && i != j && cfg.Primary(v) == i && i !in votes && |votes| >= cfg.n / 2
    requires Voter(cfg, s, i, v, 0, [], 0, {}) && forall k :: k in votes ==> StartViewChange(v, k) in s.h.msgs
    requires DoViewChange(v, j, d) in s.h.msgs && forall k :: k in g ==> DoViewChange(v, k, Nothing) in s.h.msgs
    ensures Live(cfg, s') && Only(s, s', {i}) && Gathers(cfg, i, s'.reps[i], v, [], reports) && Mixed(reports, i, g, j, d)
  {
    Primaries(cfg);
    var s1 := OwnReport(cfg, s, i, v, votes);
    hide Live, Voter, Gathers, Adds;
    var own := map[i := Nothing];
    var two := own[j := d];
    TwoSizes(cfg, g, i, j, d);
    var s2 := Electing.Counts(cfg, s1, i, v, [], own, j, d);
    assert two.Keys !! g && i !in g;
    s', reports := CountAll(cfg, s2, i, v, [], two, g);
    MixedSo(reports, i, g, j, d);
    OnlyTwice(s, s1, s2, {i}, {i});
    OnlyTwice(s, s2, s', {i} + {i}, {i});
    assert {i} + {i} + {i} == {i};
  }

  lemma TwoSizes(cfg: Config, g: set<nat>, i: nat, j: nat, d: Report)
    requires Spare(cfg, g) && i < 5 && j < 5 && i != j
    ensures var two := map[i := Nothing][j := d]; two.Keys == {i, j} && |two| == 2 < cfg.Quorum() && |two.Keys + g| < cfg.Quorum()
  {
    Primaries(cfg);
    var two := map[i := Nothing][j := d];
    assert two.Keys == {i, j} && |two| == |two.Keys|;
    if i < j {
      PairSize(cfg, g, i, j);
    } else {
      PairSize(cfg, g, j, i);
      assert {i, j} == {j, i};
    }
  }

  lemma PairSize(cfg: Config, g: set<nat>, a: nat, b: nat)
    requires Spare(cfg, g) && a < b < 5
    ensures |{a, b} + g| == cfg.Quorum() - 1
  {
    Joined(a, g);
    Joined(b, {a} + g);
    assert {b} + ({a} + g) == {a, b} + g;
  }

  lemma MixedSo(reports: map<nat, Report>, i: nat, who: set<nat>, j: nat, d: Report)
    requires Adds(reports, map[i := Nothing][j := d], who) && i != j && i !in who && j !in who
    ensures Mixed(reports, i, who, j, d)
  {
  }

  /** One more report, of replica `k`, makes a quorum. */
  lemma Quorate(cfg: Config, g: set<nat>, reports: map<nat, Report>, i: nat, j: nat, d: Report, k: nat, last: Report)
    requires Spare(cfg, g) && Mixed(reports, i, g, j, d) && i < 5 && j < 5 && k < 5 && i != j && j != k && i != k
    ensures var all := reports[k := last];
            && |all| == cfg.Quorum() && i in all && j in all && k in all
            && forall x {:trigger all[x]} :: x in all ==> x < cfg.n && all[x] == if x == k then last else if x == j then d else Nothing
  {
    KeysSize(cfg, g, i, j);
    assert forall x :: x in g ==> 5 <= x < cfg.n;
    assert cfg.n >= 5;
    hide Spare;
    var all := reports[k := last];
    assert |all| == |all.Keys| && all.Keys == {k} + ({i, j} + g);
    Joined(k, {i, j} + g);
  }

  lemma KeysSize(cfg: Config, g: set<nat>, i: nat, j: nat)
    requires Spare(cfg, g) && i < 5 && j < 5 && i != j
    ensures |{i, j} + g| == cfg.Quorum() - 1
  {
    if i < j {
      PairSize(cfg, g, i, j);
    } else {
      PairSize(cfg, g, j, i);
      assert {i, j} == {j, i};
    }
  }

  // ---------------------------------------------------------------------------
  // View 1: replica 1 leads it, with nothing in it

  function Group1(g: set<nat>): set<nat> { {2, 3} + g }

  lemma NewSits(cfg: Config)
    ensures Sits(cfg, New(cfg), 0, 0, [], 0) && New(cfg).flushed == [] && New(cfg).status == Normal && New(cfg).view == 0
  {
  }

  /** Replica 0 appends two entries that nobody else gets. */
  lemma AppendsXX(cfg: Config, s: System) returns (s': System)
    requires cfg.Valid() && Live(cfg, s) && |s.reps| == cfg.n && s.reps[0] == New(cfg)
    ensures Live(cfg, s') && Only(s, s', {0}) && Sits(cfg, s'.reps[0], 0, 0, [X1, X2], 0)
  {
    var s1 := Do(cfg, s, 0, ClientEntry(X1));
    s' := Do(cfg, s1, 0, ClientEntry(X2));
    assert [] + [X1] + [X2] == [X1, X2];
    hide Live;
    OnlyTwice(s, s1, s', {0}, {0});
    assert {0} + {0} == {0};
  }

  /** Replica `i` times out and votes for the next view. */
  lemma Calls(cfg: Config, s: System, i: nat) returns (s': System)
    requires cfg.Valid() && Live(cfg, s) && |s.reps| == cfg.n && i < cfg.n && Sits(cfg, s.reps[i], s.reps[i].view, 0, [], 0)
    requires s.reps[i].status == ViewChange || cfg.Primary(s.reps[i].view) != i
    ensures Live(cfg, s') && Only(s, s', {i})
    ensures var v := s.reps[i].view + 1; Voter(cfg, s', i, v, 0, [], 0, {}) && StartViewChange(v, i) in s'.h.msgs
  {
    hide Live, Sits;
    var s1 := Wakes(cfg, s, i, 0, [], 0);
    hide Voter;
    s' := Electing.Sends(cfg, s1, i, s.reps[i].view + 1, 0, [], 0, {});
    OnlyTwice(s, s1, s', {i}, {i});
    assert {i} + {i} == {i};
  }

  /** A group that has done nothing votes for view 1, and reports. */
  lemma GroupReports(cfg: Config, s: System, who: set<nat>, from: nat) returns (s': System)
    requires cfg.Valid() && Live(cfg, s) && |s.reps| == cfg.n && StartViewChange(1, from) in s.h.msgs && from !in who && |{from} + who| > cfg.n / 2
    requires forall j {:trigger j in who} :: j in who ==> j < cfg.n && s.reps[j] == New(cfg)
    ensures Live(cfg, s') && Only(s, s', who) && Reporters(cfg, s', who, 1)
    ensures forall k :: k in who ==> StartViewChange(1, k) in s'.h.msgs
  {
    assert New(cfg).view == 0 && Sits(cfg, New(cfg), 0, 0, [], 0) by { NewSits(cfg); }
    hide Live, New, Sits, Voter, Reporters;
    var s1 := JoinAll(cfg, s, who, 1, from);
    s' := ReportAll(cfg, s1, who, 1, from, {from} + who);
    OnlyBoth(s, s1, s', who, who, who);
  }

  lemma Group1Size(cfg: Config, g: set<nat>)
    requires Spare(cfg, g)
    ensures |Group1(g)| == cfg.n / 2 && |{1} + Group1(g)| > cfg.n / 2 && 1 !in Group1(g) && forall j :: j in Group1(g) ==> 1 < j < cfg.n
  {
    Three(cfg, g, 1, 2, 3);
    PairSize(cfg, g, 2, 3);
    Joined(1, Group1(g));
  }

  /** All the reports for view 1 are of nothing. */
  lemma Highest1(cfg: Config, all: map<nat, Report>)
    requires 1 in all && forall x {:trigger all[x]} :: x in all ==> x < cfg.n && all[x] == Nothing
    ensures Highest(cfg, all, [], 0)
  {
    assert all[1].log == [] && all[1].commit == 0;
  }

  /** Replica 1 starts view 1 from those reports. */
  lemma Leads1(cfg: Config, g: set<nat>, s: System) returns (s': System)
    requires Spare(cfg, g) && Live(cfg, s) && |s.reps| == cfg.n && Voter(cfg, s, 1, 1, 0, [], 0, {}) && Reporters(cfg, s, Group1(g), 1)
    requires forall k :: k in Group1(g) ==> StartViewChange(1, k) in s.h.msgs
    ensures Live(cfg, s') && Only(s, s', {1}) && Leads(cfg, 1, s'.reps[1], 1, [], {})
  {
    Primaries(cfg);
    assert |Group1(g)| >= cfg.n / 2 && 1 !in Group1(g) by { Group1Size(cfg, g); }
    Told1(cfg, g, s);
    hide Live, Voter, Reporters, Gathers, Leads, Group1, Mixed, Spare;
    var s1, reports := Gathering(cfg, g, s, 1, 1, 3, Nothing, Group1(g));
    Quorate(cfg, g, reports, 1, 3, Nothing, 2, Nothing);
    Highest1(cfg, reports[2 := Nothing]);
    hide Highest;
    s' := StartsView(cfg, s1, 1, 1, [], reports, 2, Nothing, []);
    OnlyBoth(s, s1, s', {1}, {1}, {1});
  }

  lemma View1(cfg: Config, g: set<nat>, s: System) returns (s': System)
    requires Spare(cfg, g) && Live(cfg, s) && |s.reps| == cfg.n && s.reps[1] == New(cfg)
    requires forall j {:trigger s.reps[j]} :: j in Group1(g) ==> s.reps[j] == New(cfg)
    ensures Live(cfg, s') && Only(s, s', {1} + Group1(g)) && Leads(cfg, 1, s'.reps[1], 1, [], {}) && Reporters(cfg, s', Group1(g), 1)
  {
    Primaries(cfg);
    NewSits(cfg);
    assert 1 !in Group1(g) by { Group1Size(cfg, g); }
    hide Live, Voter, Reporters, Leads, Group1, New, Sits;
    var s1 := Calls(cfg, s, 1);
    assert |{1} + Group1(g)| > cfg.n / 2 && forall j {:trigger j in Group1(g)} :: j in Group1(g) ==> j < cfg.n && s1.reps[j] == New(cfg) by { Group1Size(cfg, g); }
    var s2 := GroupReports(cfg, s1, Group1(g), 1);
    OnlyTwice(s, s1, s2, {1}, Group1(g));
    VoterStays(cfg, s1, s2, 1, 1, 0, [], 0, {}, Group1(g));
    s' := Leads1(cfg, g, s2);
    OnlyBoth(s, s2, s', {1} + Group1(g), {1}, {1} + Group1(g));
    StillReporters(cfg, s2, s', Group1(g), 1, {1});
  }

  lemma Told1(cfg: Config, g: set<nat>, s: System)
    requires Spare(cfg, g) && Reporters(cfg, s, Group1(g), 1)
    ensures DoViewChange(1, 2, Nothing) in s.h.msgs && DoViewChange(1, 3, Nothing) in s.h.msgs
    ensures forall k :: k in g ==> DoViewChange(1, k, Nothing) in s.h.msgs
  {
    Primaries(cfg);
    assert 2 in Group1(g) && 3 in Group1(g) && forall k :: k in g ==> k in Group1(g);
  }

  lemma StillReporters(cfg: Config, s: System, s': System, who: set<nat>, v: nat, others: set<nat>)
    requires Reporters(cfg, s, who, v) && Only(s, s', others) && others !! who
    ensures Reporters(cfg, s', who, v)
  {
    assert forall i {:trigger s'.reps[i]} :: i in who ==> s'.reps[i] == s.reps[i];
  }

  // ---------------------------------------------------------------------------
  // View 2: all but its primary report for it, and it does not start

  function Voters2(g: set<nat>): set<nat> { {0, 2, 4} + g }

  lemma Sizes2(cfg: Config, g: set<nat>)
    requires Spare(cfg, g)
    ensures |Voters2(g)| > cfg.n / 2 && |{0, 4} + g| >= cfg.n / 2 && forall j :: j in g ==> j >= 5
  {
    Three(cfg, g, 0, 2, 4);
    PairSize(cfg, g, 0, 4);
  }

  /** All of them voted for view 2; replica 0 and the group reported, as their disks say. */
  ghost predicate Pending2(cfg: Config, g: set<nat>, s: System) {
    && |s.reps| == cfg.n
    && (forall k :: k in Voters2(g) ==> StartViewChange(2, k) in s.h.msgs)
    && (forall k :: k in g ==> DoViewChange(2, k, Nothing) in s.h.msgs)
    && DoViewChange(2, 0, XX) in s.h.msgs
  }

  lemma Pends(cfg: Config, g: set<nat>, s: System, s': System, who: set<nat>)
    requires Pending2(cfg, g, s) && Only(s, s', who)
    ensures Pending2(cfg, g, s')
  {
  }

  /** Replica 4 voted for view 2, and has nothing on disk but that. */
  ghost predicate Behind(cfg: Config, r: Replica) {
    Lags(cfg, r, 2) && r.lastNormal == 0 && r.log == [] && r.catchingUp.None? && r.disk == Image(2, 0, 0, []) && r.flushed == []
  }

  lemma Joins4(cfg: Config, s: System) returns (s': System)
    requires cfg.n >= 5 && Live(cfg, s) && |s.reps| == cfg.n && s.reps[4] == New(cfg) && StartViewChange(2, 2) in s.h.msgs
    ensures Live(cfg, s') && Only(s, s', {4}) && Behind(cfg, s'.reps[4]) && StartViewChange(2, 4) in s'.h.msgs
  {
    NewSits(cfg);
    hide Live, New;
    s' := Joins(cfg, s, 4, 2, 2, 0, [], 0);
  }

  /** Replica 2 and the group vote for view 2. */
  lemma Calls2(cfg: Config, g: set<nat>, s: System) returns (s': System)
    requires Spare(cfg, g) && Live(cfg, s) && |s.reps| == cfg.n && Sits(cfg, s.reps[2], 1, 0, [], 0) && Reporters(cfg, s, g, 1)
    ensures Live(cfg, s') && |s'.reps| == cfg.n && Only(s, s', {2} + g) && Voter(cfg, s', 2, 2, 0, [], 0, {}) && Voters(cfg, s', g, 2, 2)
    ensures StartViewChange(2, 2) in s'.h.msgs
  {
    Primaries(cfg);
    assert s.reps[2].view == 1 && s.reps[2].status == ViewChange;
    assert forall j :: j in g ==> j >= 5;
    assert forall i {:trigger i in g} :: i in g ==> i < |s.reps| && Sits(cfg, s.reps[i], 1, 0, [], 0) && s.reps[i].view == 1;
    hide Live, Sits, Voter, Reporters, Spare, Voters;
    var s1 := Calls(cfg, s, 2);
    s' := JoinAll(cfg, s1, g, 2, 2);
    OnlyTwice(s, s1, s', {2}, g);
    VoterStays(cfg, s1, s', 2, 2, 0, [], 0, {}, g);
  }

  /** So do replicas 4 and 0. */
  lemma Joins2(cfg: Config, s: System) returns (s': System)
    requires cfg.n >= 5 && Live(cfg, s) && |s.reps| == cfg.n && s.reps[4] == New(cfg) && Sits(cfg, s.reps[0], 0, 0, [X1, X2], 0)
    requires StartViewChange(2, 2) in s.h.msgs
    ensures Live(cfg, s') && |s'.reps| == cfg.n && Only(s, s', {0, 4}) && Behind(cfg, s'.reps[4]) && Voter(cfg, s', 0, 2, 0, [X1, X2], 0, {2})
    ensures StartViewChange(2, 4) in s'.h.msgs && StartViewChange(2, 0) in s'.h.msgs
  {
    assert s.reps[0].view == 0;
    hide Live, New, Sits, Voter, Behind;
    var s1 := Joins4(cfg, s);
    s' := Joins(cfg, s1, 0, 2, 2, 0, [X1, X2], 0);
    OnlyBoth(s, s1, s', {4}, {0}, {0, 4});
  }

  /** Replicas 2 and 4, the group and replica 0 vote for view 2. */
  lemma Votes2(cfg: Config, g: set<nat>, s: System, all: set<nat>) returns (s': System)
    requires Spare(cfg, g) && Live(cfg, s) && |s.reps| == cfg.n && s.reps[4] == New(cfg) && Sits(cfg, s.reps[0], 0, 0, [X1, X2], 0)
    requires Sits(cfg, s.reps[2], 1, 0, [], 0) && Reporters(cfg, s, g, 1) && {2} + g <= all && {0, 4} <= all
    ensures Live(cfg, s') && |s'.reps| == cfg.n && Only(s, s', all) && Voter(cfg, s', 2, 2, 0, [], 0, {}) && Behind(cfg, s'.reps[4])
    ensures StartViewChange(2, 0) in s'.h.msgs && StartViewChange(2, 2) in s'.h.msgs && StartViewChange(2, 4) in s'.h.msgs
    ensures Voters(cfg, s', g, 2, 2) && Voter(cfg, s', 0, 2, 0, [X1, X2], 0, {2})
  {
    hide Live, New, Sits, Voter, Reporters, Behind, Voters;
    var s1 := Calls2(cfg, g, s);
    s' := Joins2(cfg, s1);
    OnlyBoth(s, s1, s', {2} + g, {0, 4}, all);
    VoterStays(cfg, s1, s', 2, 2, 0, [], 0, {}, {0, 4});
    VotersStay(cfg, s1, s', g, 2, 2, {0, 4});
  }

  lemma VotersStay(cfg: Config, s: System, s': System, who: set<nat>, v: nat, from: nat, others: set<nat>)
    requires Voters(cfg, s, who, v, from) && Only(s, s', others) && who !! others
    ensures Voters(cfg, s', who, v, from)
  {
    hide Voter;
    forall i | i in who
      ensures Voter(cfg, s', i, v, 0, [], 0, {from}) && StartViewChange(v, i) in s'.h.msgs
    {
      VoterStays(cfg, s, s', i, v, 0, [], 0, {from}, others);
    }
  }

  lemma AllVoted2(cfg: Config, g: set<nat>, s: System)
    requires Voters(cfg, s, g, 2, 2)
    requires StartViewChange(2, 0) in s.h.msgs && StartViewChange(2, 2) in s.h.msgs && StartViewChange(2, 4) in s.h.msgs
    ensures forall k :: k in Voters2(g) ==> StartViewChange(2, k) in s.h.msgs
  {
    hide Voter;
  }

  /** And the group and replica 0 report. */
  lemma View2(cfg: Config, g: set<nat>, s: System) returns (s': System)
    requires Spare(cfg, g) && Live(cfg, s) && |s.reps| == cfg.n && s.reps[4] == New(cfg) && Sits(cfg, s.reps[0], 0, 0, [X1, X2], 0)
    requires Sits(cfg, s.reps[2], 1, 0, [], 0) && Reporters(cfg, s, g, 1)
    ensures Live(cfg, s') && Only(s, s', Voters2(g)) && Pending2(cfg, g, s') && Voter(cfg, s', 2, 2, 0, [], 0, {}) && Behind(cfg, s'.reps[4])
    ensures Sits(cfg, s'.reps[0], 2, 0, [X1, X2], 0) && Reporters(cfg, s', g, 2)
  {
    Primaries(cfg);
    Sizes2(cfg, g);
    var all := Voters2(g);
    assert {2} + g <= all && {0, 4} <= all && 2 in all && 0 in all && 4 !in g && 2 !in g && 0 !in g;
    hide Live, New, Sits, Voter, Voters, Reporters, Behind;
    var s1 := Votes2(cfg, g, s, all);
    AllVoted2(cfg, g, s1);
    hide Voters2;
    s' := Reports2(cfg, g, s1, all);
    OnlyBoth(s, s1, s', all, all, all);
  }

  lemma Reports2(cfg: Config, g: set<nat>, s: System, all: set<nat>) returns (s': System)
    requires Spare(cfg, g) && Live(cfg, s) && |s.reps| == cfg.n && g + {0, 2, 4} == all && |all| > cfg.n / 2
    requires Voter(cfg, s, 2, 2, 0, [], 0, {}) && Behind(cfg, s.reps[4]) && Voters(cfg, s, g, 2, 2) && Voter(cfg, s, 0, 2, 0, [X1, X2], 0, {2})
    requires forall k :: k in all ==> StartViewChange(2, k) in s.h.msgs
    ensures Live(cfg, s') && |s'.reps| == cfg.n && Only(s, s', all) && Voter(cfg, s', 2, 2, 0, [], 0, {}) && Behind(cfg, s'.reps[4])
    ensures Sits(cfg, s'.reps[0], 2, 0, [X1, X2], 0) && Reporters(cfg, s', g, 2)
    ensures (forall k :: k in g ==> DoViewChange(2, k, Nothing) in s'.h.msgs) && DoViewChange(2, 0, XX) in s'.h.msgs
  {
    Primaries(cfg);
    assert 0 !in g && 2 !in g && 4 !in g && g <= all;
    hide Live, Sits, Voter, Voters, Reporters, Behind, Spare;
    var s1 := ReportAll(cfg, s, g, 2, 2, all);
    VoterStays(cfg, s, s1, 2, 2, 0, [], 0, {}, g);
    VoterStays(cfg, s, s1, 0, 2, 0, [X1, X2], 0, {2}, g);
    s' := ReportsVoters(cfg, s1, 0, 2, all, 0, [X1, X2], 0, {2});
    VoterStays(cfg, s1, s', 2, 2, 0, [], 0, {}, {0});
    VoterSits(cfg, s', 0, 2, 0, [X1, X2], 0, all - {0});
    StillReporters(cfg, s1, s', g, 2, {0});
    OnlyBoth(s, s1, s', g, {0}, all);
    GroupTold(cfg, g, s', 2);
  }

  lemma GroupTold(cfg: Config, g: set<nat>, s: System, v: nat)
    requires Spare(cfg, g) && Reporters(cfg, s, g, v) && v < 5
    ensures forall k :: k in g ==> DoViewChange(v, k, Nothing) in s.h.msgs
  {
    assert forall k :: k in g ==> k >= 5;
    assert cfg.Primary(v) == v by { PrimaryOf(cfg, v); }

    forall k | k in g
      ensures DoViewChange(v, k, Nothing) in s.h.msgs
    {
    }
  }

  lemma PrimaryOf(cfg: Config, v: nat)
    requires cfg.n >= 5 && v < 5
    ensures cfg.Primary(v) == v
  {
  }

  // ---------------------------------------------------------------------------
  // View 3: replica 3 leads it, with what replica 1 had, and commits Y

  function Voters3(g: set<nat>): set<nat> { {0, 1, 3} + g }

  lemma Sizes3(cfg: Config, g: set<nat>)
    requires Spare(cfg, g)
    ensures |Voters3(g)| > cfg.n / 2 && |{0, 1} + g| >= cfg.n / 2
  {
    Three(cfg, g, 0, 1, 3);
    PairSize(cfg, g, 0, 1);
  }

  /** Replica 3 times out of views 1 and 2. */
  lemma Calls3(cfg: Config, s: System) returns (s': System)
    requires cfg.n >= 5 && Live(cfg, s) && |s.reps| == cfg.n && Sits(cfg, s.reps[3], 1, 0, [], 0)
    ensures Live(cfg, s') && |s'.reps| == cfg.n && Only(s, s', {3}) && Voter(cfg, s', 3, 3, 0, [], 0, {}) && StartViewChange(3, 3) in s'.h.msgs
  {
    assert s.reps[3].view == 1 && s.reps[3].status == ViewChange;
    hide Live, Sits, Voter;
    var s1 := Calls(cfg, s, 3);
    VoterSits(cfg, s1, 3, 2, 0, [], 0, {});
    assert s1.reps[3].view == 2 && s1.reps[3].status == ViewChange by { SitsIn(cfg, s1.reps[3], 2, 0, [], 0); }
    s' := Calls(cfg, s1, 3);
    OnlyBoth(s, s1, s', {3}, {3}, {3});
  }

  lemma SitsIn(cfg: Config, r: Replica, v: nat, ln: nat, log: Log, commit: nat)
    requires Sits(cfg, r, v, ln, log, commit)
    ensures r.view == v && (ln < v ==> r.status == ViewChange) && r.log == log && r.commit == commit
  {
  }

  /** Then the group, replica 0 and replica 1 vote for view 3. */
  lemma Joins3(cfg: Config, g: set<nat>, s: System, all: set<nat>) returns (s': System)
    requires Spare(cfg, g) && Live(cfg, s) && |s.reps| == cfg.n && StartViewChange(3, 3) in s.h.msgs && g + {0, 1} <= all
    requires Reporters(cfg, s, g, 2) && Sits(cfg, s.reps[0], 2, 0, [X1, X2], 0) && Sits(cfg, s.reps[1], 1, 1, [], 0)
    ensures Live(cfg, s') && |s'.reps| == cfg.n && Only(s, s', g + {0, 1}) && Voters(cfg, s', g, 3, 3)
    ensures Voter(cfg, s', 0, 3, 0, [X1, X2], 0, {3}) && Voter(cfg, s', 1, 3, 1, [], 0, {3})
    ensures StartViewChange(3, 0) in s'.h.msgs && StartViewChange(3, 1) in s'.h.msgs
  {
    SitsIn(cfg, s.reps[0], 2, 0, [X1, X2], 0);
    SitsIn(cfg, s.reps[1], 1, 1, [], 0);
    assert forall i {:trigger i in g} :: i in g ==> i < |s.reps| && Sits(cfg, s.reps[i], 2, 0, [], 0) && s.reps[i].view == 2;
    assert 0 !in g && 1 !in g && 3 !in g;
    hide Live, Sits, Voter, Voters, Reporters, Spare;
    var s1 := JoinAll(cfg, s, g, 3, 3);
    var s2 := Joins(cfg, s1, 0, 3, 3, 0, [X1, X2], 0);
    s' := Joins(cfg, s2, 1, 3, 3, 1, [], 0);
    OnlyBoth(s1, s2, s', {0}, {1}, {0, 1});
    OnlyBoth(s, s1, s', g, {0, 1}, g + {0, 1});
    VotersStay(cfg, s1, s', g, 3, 3, {0, 1});
    VoterStays(cfg, s2, s', 0, 3, 0, [X1, X2], 0, {3}, {1});
  }

  lemma AllVoted3(cfg: Config, g: set<nat>, s: System)
    requires Voters(cfg, s, g, 3, 3)
    requires StartViewChange(3, 0) in s.h.msgs && StartViewChange(3, 1) in s.h.msgs && StartViewChange(3, 3) in s.h.msgs
    ensures forall k :: k in Voters3(g) ==> StartViewChange(3, k) in s.h.msgs
  {
    hide Voter;
  }

  /** And report for it. */
  lemma Reports3(cfg: Config, g: set<nat>, s: System, all: set<nat>) returns (s': System)
    requires Spare(cfg, g) && Live(cfg, s) && |s.reps| == cfg.n && g + {0, 1, 3} == all && |all| > cfg.n / 2
    requires Voters(cfg, s, g, 3, 3) && Voter(cfg, s, 0, 3, 0, [X1, X2], 0, {3}) && Voter(cfg, s, 1, 3, 1, [], 0, {3})
    requires forall k :: k in all ==> StartViewChange(3, k) in s.h.msgs
    ensures Live(cfg, s') && |s'.reps| == cfg.n && Only(s, s', g + {0, 1}) && Reporters(cfg, s', g, 3)
    ensures Sits(cfg, s'.reps[0], 3, 0, [X1, X2], 0) && Sits(cfg, s'.reps[1], 3, 1, [], 0)
    ensures (forall k :: k in g ==> DoViewChange(3, k, Nothing) in s'.h.msgs) && DoViewChange(3, 0, XX) in s'.h.msgs && DoViewChange(3, 1, R1) in s'.h.msgs
  {
    Primaries(cfg);
    assert 0 !in g && 1 !in g && 3 !in g && g <= all;
    hide Live, Sits, Voter, Voters, Reporters, Spare;
    var s1 := ReportAll(cfg, s, g, 3, 3, all);
    VoterStays(cfg, s, s1, 0, 3, 0, [X1, X2], 0, {3}, g);
    VoterStays(cfg, s, s1, 1, 3, 1, [], 0, {3}, g);
    var s2 := ReportsVoters(cfg, s1, 0, 3, all, 0, [X1, X2], 0, {3});
    VoterStays(cfg, s1, s2, 1, 3, 1, [], 0, {3}, {0});
    VoterSits(cfg, s2, 0, 3, 0, [X1, X2], 0, all - {0});
    s' := ReportsVoters(cfg, s2, 1, 3, all, 1, [], 0, {3});
    VoterSits(cfg, s', 1, 3, 1, [], 0, all - {1});
    OnlyBoth(s1, s2, s', {0}, {1}, {0, 1});
    StillReporters(cfg, s1, s', g, 3, {0, 1});
    OnlyBoth(s, s1, s', g, {0, 1}, g + {0, 1});
    GroupTold(cfg, g, s', 3);
  }

  /** The log of replica 1 ranks highest, for the view it was last normal in. */
  lemma Highest3(cfg: Config, all: map<nat, Report>)
    requires 1 in all && forall x {:trigger all[x]} :: x in all ==> x < cfg.n && all[x] == if x == 1 then R1 else if x == 0 then XX else Nothing
    ensures Highest(cfg, all, [], 0)
  {
    assert all[1].log == [] && all[1].commit == 0;
    forall b | b in all && forall i :: i in all ==> Ranks(all[b], all[i])
      ensures all[b].log == []
    {
      assert Ranks(all[b], all[1]);
    }
  }

  lemma Leads3(cfg: Config, g: set<nat>, s: System) returns (s': System)
    requires Spare(cfg, g) && Live(cfg, s) && |s.reps| == cfg.n && Voter(cfg, s, 3, 3, 0, [], 0, {})
    requires forall k :: k in Voters3(g) ==> StartViewChange(3, k) in s.h.msgs
    requires (forall k :: k in g ==> DoViewChange(3, k, Nothing) in s.h.msgs) && DoViewChange(3, 0, XX) in s.h.msgs && DoViewChange(3, 1, R1) in s.h.msgs
    ensures Live(cfg, s') && Only(s, s', {3}) && Leads(cfg, 3, s'.reps[3], 3, [], {})
  {
    Primaries(cfg);
    Sizes3(cfg, g);
    assert 3 !in {0, 1} + g && forall k :: k in {0, 1} + g ==> k in Voters3(g);
    hide Live, Voter, Gathers, Leads, Mixed, Voters3, Spare;
    var s1, reports := Gathering(cfg, g, s, 3, 3, 0, XX, {0, 1} + g);
    Quorate(cfg, g, reports, 3, 0, XX, 1, R1);
    Highest3(cfg, reports[1 := R1]);
    hide Highest;
    s' := StartsView(cfg, s1, 3, 3, [], reports, 1, R1, []);
    OnlyBoth(s, s1, s', {3}, {3}, {3});
  }

  /** All of them vote for view 3. */
  lemma Votes3(cfg: Config, g: set<nat>, s: System, all: set<nat>) returns (s': System)
    requires Spare(cfg, g) && Live(cfg, s) && |s.reps| == cfg.n && Sits(cfg, s.reps[3], 1, 0, [], 0) && g + {0, 1} <= all && 3 in all
    requires Reporters(cfg, s, g, 2) && Sits(cfg, s.reps[0], 2, 0, [X1, X2], 0) && Sits(cfg, s.reps[1], 1, 1, [], 0)
    ensures Live(cfg, s') && |s'.reps| == cfg.n && Only(s, s', all) && Voter(cfg, s', 3, 3, 0, [], 0, {})
    ensures Voters(cfg, s', g, 3, 3) && Voter(cfg, s', 0, 3, 0, [X1, X2], 0, {3}) && Voter(cfg, s', 1, 3, 1, [], 0, {3})
    ensures forall k :: k in Voters3(g) ==> StartViewChange(3, k) in s'.h.msgs
  {
    assert 3 !in g;
    hide Live, Sits, Voter, Voters, Reporters, Spare;
    var s1 := Calls3(cfg, s);
    StillReporters(cfg, s, s1, g, 2, {3});
    s' := Joins3(cfg, g, s1, all);
    AllVoted3(cfg, g, s');
    VoterStays(cfg, s1, s', 3, 3, 0, [], 0, {}, g + {0, 1});
    OnlyBoth(s, s1, s', {3}, g + {0, 1}, all);
  }

  /** And report for it. */
  lemma Gather3(cfg: Config, g: set<nat>, s: System, all: set<nat>) returns (s': System)
    requires Spare(cfg, g) && Live(cfg, s) && |s.reps| == cfg.n && Sits(cfg, s.reps[3], 1, 0, [], 0) && all == Voters3(g) && |all| > cfg.n / 2
    requires Reporters(cfg, s, g, 2) && Sits(cfg, s.reps[0], 2, 0, [X1, X2], 0) && Sits(cfg, s.reps[1], 1, 1, [], 0)
    ensures Live(cfg, s') && |s'.reps| == cfg.n && Only(s, s', all) && Voter(cfg, s', 3, 3, 0, [], 0, {}) && Reporters(cfg, s', g, 3)
    ensures Sits(cfg, s'.reps[0], 3, 0, [X1, X2], 0) && Sits(cfg, s'.reps[1], 3, 1, [], 0)
    ensures forall k :: k in Voters3(g) ==> StartViewChange(3, k) in s'.h.msgs
    ensures (forall k :: k in g ==> DoViewChange(3, k, Nothing) in s'.h.msgs) && DoViewChange(3, 0, XX) in s'.h.msgs && DoViewChange(3, 1, R1) in s'.h.msgs
  {
    assert g + {0, 1} <= all && 3 in all && g + {0, 1, 3} == all && 3 !in g;
    hide Live, Sits, Voter, Voters, Reporters, Spare, Voters3;
    var s1 := Votes3(cfg, g, s, all);
    s' := Reports3(cfg, g, s1, all);
    VoterStays(cfg, s1, s', 3, 3, 0, [], 0, {}, g + {0, 1});
    OnlyBoth(s, s1, s', all, g + {0, 1}, all);
  }

  lemma View3(cfg: Config, g: set<nat>, s: System) returns (s': System)
    requires Spare(cfg, g) && Live(cfg, s) && |s.reps| == cfg.n && Sits(cfg, s.reps[3], 1, 0, [], 0)
    requires Reporters(cfg, s, g, 2) && Sits(cfg, s.reps[0], 2, 0, [X1, X2], 0) && Sits(cfg, s.reps[1], 1, 1, [], 0)
    ensures Live(cfg, s') && |s'.reps| == cfg.n && Only(s, s', Voters3(g)) && Leads(cfg, 3, s'.reps[3], 3, [], {}) && Reporters(cfg, s', g, 3)
    ensures Sits(cfg, s'.reps[0], 3, 0, [X1, X2], 0) && Sits(cfg, s'.reps[1], 3, 1, [], 0) && StartViewChange(3, 0) in s'.h.msgs
  {
    Sizes3(cfg, g);
    assert 3 in Voters3(g) && 0 in Voters3(g) && 3 !in g;
    hide Live, Sits, Voter, Reporters, Leads, Spare, Voters3;
    var s1 := Gather3(cfg, g, s, Voters3(g));
    s' := Leads3(cfg, g, s1);
    StillReporters(cfg, s1, s', g, 3, {3});
    OnlyBoth(s, s1, s', Voters3(g), {3}, Voters3(g));
  }

  /** Replica 3 appends Y, and announces that as the log of view 3. */
  lemma LeadsY(cfg: Config, s: System) returns (s': System)
    requires cfg.n >= 5 && Live(cfg, s) && |s.reps| == cfg.n && Leads(cfg, 3, s.reps[3], 3, [], {}) && StartViewChange(3, 0) in s.h.msgs
    ensures Live(cfg, s') && Only(s, s', {3}) && Leads(cfg, 3, s'.reps[3], 3, [Y], {3}) && StartView(3, [Y], 0) in s'.h.msgs
    ensures s'.reps[3].durable == 1 && s'.reps[3].changed.None? && s'.reps[3].disk.lastNormal == 3
  {
    hide Live, Leads;
    var s1 := Appends(cfg, s, 3, 3, [], Y);
    assert [] + [Y] == [Y];
    var s2 := Announces(cfg, s1, 3, 3, [Y], 0);
    s' := LandsEntry(cfg, s2, 3, 3, Y);
    assert s'.reps[3].disk.lastNormal == 3 by { LeadsIn(cfg, 3, s'.reps[3], 3, [Y], {3}); }
    OnlyBoth(s, s1, s2, {3}, {3}, {3});
    OnlyBoth(s, s2, s', {3}, {3}, {3});
  }

  lemma LeadsIn(cfg: Config, i: nat, r: Replica, v: nat, log: Log, acks: set<nat>)
    requires Leads(cfg, i, r, v, log, acks)
    ensures r.lastNormal == v
  {
  }

  /** The others follow and acknowledge it. */
  lemma FollowY(cfg: Config, g: set<nat>, s: System, who: set<nat>) returns (s': System)
    requires Spare(cfg, g) && Live(cfg, s) && |s.reps| == cfg.n && StartView(3, [Y], 0) in s.h.msgs && Reporters(cfg, s, g, 3) && who == g + {0, 1}
    requires Sits(cfg, s.reps[0], 3, 0, [X1, X2], 0) && Sits(cfg, s.reps[1], 3, 1, [], 0)
    ensures Live(cfg, s') && Only(s, s', who) && forall i {:trigger i in who} :: i in who ==> PrepareOk(3, 1, i) in s'.h.msgs
  {
    Primaries(cfg);
    assert forall i {:trigger i in who} :: i in who ==> i < cfg.n && i < |s.reps| && cfg.Primary(3) != i && Lags(cfg, s.reps[i], 3);
    hide Live, Lags, Sits, Spare, Reporters;
    s' := FollowAll(cfg, s, who, 3, Y);
  }

  /** Which commits it, and replica 3 says so. */
  lemma CommitsY(cfg: Config, s: System, most: set<nat>) returns (s': System)
    requires cfg.n >= 5 && Live(cfg, s) && |s.reps| == cfg.n && Leads(cfg, 3, s.reps[3], 3, [Y], {3})
    requires s.reps[3].durable == 1 && s.reps[3].changed.None? && s.reps[3].disk.lastNormal == 3
    requires (forall i :: i in most ==> PrepareOk(3, 1, i) in s.h.msgs && i < cfg.n) && PrepareOk(3, 1, 1) in s.h.msgs
    requires 1 !in most && 3 !in most && |{3} + most| == cfg.Quorum() - 1
    ensures Live(cfg, s') && Only(s, s', {3}) && Commit(3, 1) in s'.h.msgs && Sits(cfg, s'.reps[3], 3, 3, [Y], 1) && s'.reps[3].disk.lastNormal == 3
  {
    Primaries(cfg);
    Joined(1, {3} + most);
    assert {1} + ({3} + most) == {3} + most + {1};
    hide Live, Leads, Sits;
    var s1 := CountAcks(cfg, s, 3, 3, Y, {3}, most);
    var s2 := CommitsLast(cfg, s1, 3, 3, Y, {3} + most, 1);
    s' := Tells(cfg, s2, 3, 3, [Y], 1);
    assert Sits(cfg, s'.reps[3], 3, 3, [Y], 1) by { EarlySits(cfg, s2.reps[3], s'.reps[3], 3, 3, [Y], 1); }
    OnlyBoth(s, s1, s2, {3}, {3}, {3});
    OnlyBoth(s, s2, s', {3}, {3}, {3});
  }

  lemma EarlySits(cfg: Config, r: Replica, r': Replica, v: nat, ln: nat, log: Log, commit: nat)
    requires Sits(cfg, r, v, ln, log, commit) && r' == r.(early := r'.early)
    ensures Sits(cfg, r', v, ln, log, commit)
  {
  }

  /** Replica 3 appends Y, and the others acknowledge it. */
  lemma Acked3(cfg: Config, g: set<nat>, s: System, others: set<nat>) returns (s': System)
    requires Spare(cfg, g) && Live(cfg, s) && |s.reps| == cfg.n && Leads(cfg, 3, s.reps[3], 3, [], {}) && StartViewChange(3, 0) in s.h.msgs
    requires Sits(cfg, s.reps[0], 3, 0, [X1, X2], 0) && Sits(cfg, s.reps[1], 3, 1, [], 0) && Reporters(cfg, s, g, 3)
    requires others == g + {0, 1} && 3 !in g
    ensures Live(cfg, s') && |s'.reps| == cfg.n && Only(s, s', {3} + others) && Leads(cfg, 3, s'.reps[3], 3, [Y], {3})
    ensures s'.reps[3].durable == 1 && s'.reps[3].changed.None? && s'.reps[3].disk.lastNormal == 3
    ensures forall i {:trigger i in others} :: i in others ==> PrepareOk(3, 1, i) in s'.h.msgs
  {
    assert cfg.n >= 5 by { SpareSize(cfg, g); }
    hide Live, Sits, Reporters, Leads, Spare;
    var s1 := LeadsY(cfg, s);
    StillReporters(cfg, s, s1, g, 3, {3});
    s' := FollowY(cfg, g, s1, others);
    OnlyTwice(s, s1, s', {3}, others);
  }

  lemma CommitsIn3(cfg: Config, g: set<nat>, s: System) returns (s': System)
    requires Spare(cfg, g) && Live(cfg, s) && |s.reps| == cfg.n && Leads(cfg, 3, s.reps[3], 3, [], {}) && StartViewChange(3, 0) in s.h.msgs
    requires Sits(cfg, s.reps[0], 3, 0, [X1, X2], 0) && Sits(cfg, s.reps[1], 3, 1, [], 0) && Reporters(cfg, s, g, 3)
    ensures Live(cfg, s') && |s'.reps| == cfg.n && Only(s, s', Voters3(g))
    ensures Commit(3, 1) in s'.h.msgs && Sits(cfg, s'.reps[3], 3, 3, [Y], 1) && s'.reps[3].disk.lastNormal == 3
  {
    hide Live, Sits, Reporters, Leads, Spare, Voters3;
    var most, others := g + {0}, g + {0, 1};
    MostSize(cfg, g, most, others);
    var s1 := Acked3(cfg, g, s, others);
    s' := CommitsY(cfg, s1, most);
    OnlyBoth(s, s1, s', {3} + others, {3}, Voters3(g));
  }

  lemma MostSize(cfg: Config, g: set<nat>, most: set<nat>, others: set<nat>)
    requires Spare(cfg, g) && most == g + {0} && others == g + {0, 1}
    ensures |{3} + most| == cfg.Quorum() - 1 && {3} + others == Voters3(g)
    ensures cfg.n >= 5 && 3 !in g && 1 !in most && 3 !in most && 1 in others
    ensures forall i {:trigger i in others} {:trigger i in most} :: i in most ==> i < cfg.n && i in others
  {
    PairSize(cfg, g, 0, 3);
    assert {3} + most == {0, 3} + g;
  }

  // ---------------------------------------------------------------------------
  // Replica 4 restores what view 3 committed, crashes, and reports it for view 2

  lemma Fetched4(cfg: Config, r: Replica, m: Message)
    requires cfg.n >= 5 && Lags(cfg, r, 3) && r.log == [] && r.catchingUp.Some? && m == NewState(3, 4, 3, 0, [Y], 1)
    ensures Fetches(r, m, 1) && var r' := Restored(cfg, 4, r, m, 1); r'.flushed == [Y] && r'.disk == r.disk
  {
    assert ([] + [Y])[..1] == [Y];
    hide ExecuteQueries, TryStartView;
    var r1 := Merge(Fetched(r, m, 1), 0, [Y]);
    assert r1 == r.(log := [Y], changed := r1.changed, commit := 1, sm := [Y], flushed := [Y]);
    hide Merge, Fetched;
    assert cfg.Primary(3) == 3 by { Primaries(cfg); }
    assert CommitUpTo(cfg, 4, r1.(catchingUp := None), 1) == r1.(catchingUp := None);
  }

  /** It asks replica 3 for the log, and takes it by a checkpoint. */
  lemma Restores4(cfg: Config, s: System) returns (s': System)
    requires Loose(cfg) && Live(cfg, s) && |s.reps| == cfg.n && Behind(cfg, s.reps[4]) && Commit(3, 1) in s.h.msgs
    requires Sits(cfg, s.reps[3], 3, 3, [Y], 1) && s.reps[3].disk.lastNormal == 3
    ensures Live(cfg, s') && |s'.reps| == cfg.n && Only(s, s', {3, 4}) && s'.reps[4].disk == Image(2, 0, 0, []) && s'.reps[4].flushed == [Y]
    ensures s'.reps[3].commit == 1 && s'.reps[3].log == [Y]
  {
    Primaries(cfg);
    assert s.reps[4].view == 2;
    var m := NewState(3, 4, 3, 0, [Y], 1);
    var s1 := Asks(cfg, s, 4, 3, 1);
    SitsIn(cfg, s.reps[3], 3, 3, [Y], 1);
    hide Live, Sits, Lags, Restored, Fetches, Behind;
    var s2 := Answers(cfg, s1, 3, 3, [Y], 1, 4);
    Fetched4(cfg, s2.reps[4], m);
    s' := Restores(cfg, s2, 4, m, 1);
    OnlyBoth(s, s1, s2, {4}, {3}, {3, 4});
    OnlyBoth(s, s2, s', {3, 4}, {4}, {3, 4});
  }

  lemma Restarted4(cfg: Config)
    requires cfg.n >= 5
    ensures var r := Restart(cfg, 4, Image(2, 0, 0, []), [Y]); Votes(cfg, 4, r, 2, 0, [Y], 1, {}) && StartViewChange(2, 4) in r.outbox
  {
    hide ExecuteQueries;
    assert [Y] + Drop([], 1) == [Y];
    var b := New(cfg).(view := 2, lastNormal := 0, commit := 1, log := [Y], sm := [Y], flushed := [Y], durable := 1,
                       disk := Image(2, 0, 0, []), failed := false);
    NoneWait(cfg, 4, b);
    assert ApplyCommitted(cfg, 4, b, 1) == b;
  }

  lemma Reports4(cfg: Config, s: System, all: set<nat>) returns (s': System)
    requires Loose(cfg) && Live(cfg, s) && |s.reps| == cfg.n && s.reps[4].disk == Image(2, 0, 0, []) && s.reps[4].flushed == [Y]
    requires (forall k :: k in all ==> StartViewChange(2, k) in s.h.msgs) && 4 in all && |all| > cfg.n / 2
    ensures Live(cfg, s') && |s'.reps| == cfg.n && Only(s, s', {4}) && DoViewChange(2, 4, RY) in s'.h.msgs
  {
    Primaries(cfg);
    Restarted4(cfg);
    hide Live, Restart, Votes;
    var s1 := Crashes(cfg, s, 4);
    assert Voter(cfg, s1, 4, 2, 0, [Y], 1, {}) by { NotSent(cfg, s1); }
    hide Voter;
    s' := ReportsVoters(cfg, s1, 4, 2, all, 0, [Y], 1, {});
    OnlyBoth(s, s1, s', {4}, {4}, {4});
  }

  lemma NotSent(cfg: Config, s: System)
    requires cfg.n >= 5 && |s.reps| == cfg.n && s.reps[4] == Restart(cfg, 4, Image(2, 0, 0, []), [Y])
    ensures !s.reps[4].dvcSent
  {
    hide ExecuteQueries;
    assert [Y] + Drop([], 1) == [Y];
    var b := New(cfg).(view := 2, lastNormal := 0, commit := 1, log := [Y], sm := [Y], flushed := [Y], durable := 1,
                       disk := Image(2, 0, 0, []), failed := false);
    NoneWait(cfg, 4, b);
  }

  // ---------------------------------------------------------------------------
  // View 2 starts

  /** The entries of replica 0 rank highest, and the commit number of replica 4 is the greatest. */
  lemma Highest2(cfg: Config, all: map<nat, Report>)
    requires 0 in all && 4 in all && forall x {:trigger all[x]} :: x in all ==> x < cfg.n && all[x] == if x == 0 then XX else if x == 4 then RY else Nothing
    ensures Highest(cfg, all, [X1, X2], 1)
  {
    assert all[0].log == [X1, X2] && all[0].commit <= 1 && all[4].commit == 1;
    forall b | b in all && forall i :: i in all ==> Ranks(all[b], all[i])
      ensures all[b].log == [X1, X2]
    {
      assert Ranks(all[b], all[0]);
    }
  }

  lemma StartsWrong(cfg: Config, r: Replica, reports: map<nat, Report>)
    requires Gathers(cfg, 2, r, 2, [], reports) && Highest(cfg, reports, [X1, X2], 1)
    ensures var r' := TryStartView(cfg, 2, r); r'.commit == 1 && r'.log == [X1, X2]
  {
    HighestIs(cfg, reports, [X1, X2], 1);
    hide Best, MaxCommit, Highest, CommitUpTo;
    assert [][..0] + Drop([X1, X2], 0) == [X1, X2];
    var r1 := Merge(r, 0, [X1, X2]);
    CommitFrame(cfg, 2, r1, 1);
  }

  lemma Gather2(cfg: Config, g: set<nat>, s: System) returns (s': System, reports: map<nat, Report>)
    requires Spare(cfg, g) && Live(cfg, s) && Pending2(cfg, g, s) && Voter(cfg, s, 2, 2, 0, [], 0, {}) && DoViewChange(2, 4, RY) in s.h.msgs
    ensures Live(cfg, s') && Only(s, s', {2}) && Gathers(cfg, 2, s'.reps[2], 2, [], reports) && Mixed(reports, 2, g, 4, RY)
  {
    Primaries(cfg);
    Sizes2(cfg, g);
    assert 2 !in {0, 4} + g && forall k :: k in {0, 4} + g ==> StartViewChange(2, k) in s.h.msgs;
    hide Live, Voter, Mixed, Spare, Voters2, Gathers;
    s', reports := Gathering(cfg, g, s, 2, 2, 4, RY, {0, 4} + g);
  }

  /** The last report comes. */
  lemma StartsLast(cfg: Config, s: System, reports: map<nat, Report>) returns (s': System)
    requires cfg.n >= 5 && Live(cfg, s) && |s.reps| == cfg.n && Gathers(cfg, 2, s.reps[2], 2, [], reports) && DoViewChange(2, 0, XX) in s.h.msgs
    requires |reports[0 := XX]| >= cfg.Quorum() && Highest(cfg, reports[0 := XX], [X1, X2], 1)
    ensures Live(cfg, s') && Only(s, s', {2}) && s'.reps[2].commit == 1 && s'.reps[2].log == [X1, X2]
  {
    Primaries(cfg);
    LastReport(cfg, 2, s.reps[2], 2, [], reports, 0, XX);
    GathersAll(cfg, s.reps[2], reports, reports[0 := XX]);
    StartsWrong(cfg, s.reps[2].(dvcFrom := reports[0 := XX]), reports[0 := XX]);
    hide Live, Highest, Gathers, OnDoViewChange, TryStartView;
    s' := Do(cfg, s, 2, Receive(DoViewChange(2, 0, XX)));
  }

  lemma GathersAll(cfg: Config, r: Replica, reports: map<nat, Report>, all: map<nat, Report>)
    requires Gathers(cfg, 2, r, 2, [], reports)
    ensures Gathers(cfg, 2, r.(dvcFrom := all), 2, [], all)
  {
  }

  lemma Starts2(cfg: Config, g: set<nat>, s: System) returns (s': System)
    requires Spare(cfg, g) && Live(cfg, s) && Pending2(cfg, g, s) && Voter(cfg, s, 2, 2, 0, [], 0, {}) && DoViewChange(2, 4, RY) in s.h.msgs
    ensures Live(cfg, s') && |s'.reps| == cfg.n && Only(s, s', {2}) && s'.reps[2].commit == 1 && s'.reps[2].log == [X1, X2]
  {
    hide Live, Voter, Mixed, Gathers, Highest, Spare;
    assert cfg.n >= 5 by { SpareSize(cfg, g); }
    var s1, reports := Gather2(cfg, g, s);
    Quorate(cfg, g, reports, 2, 4, RY, 0, XX);
    Highest2(cfg, reports[0 := XX]);
    s' := StartsLast(cfg, s1, reports);
    OnlyBoth(s, s1, s', {2}, {2}, {2});
  }

  lemma SpareSize(cfg: Config, g: set<nat>)
    requires Spare(cfg, g)
    ensures cfg.n >= 5
  {
  }

  // ---------------------------------------------------------------------------
  // The run

  lemma Outside1(cfg: Config, g: set<nat>, others: set<nat>)
    requires Spare(cfg, g) && others == {1} + Group1(g)
    ensures cfg.n >= 5 && 0 !in others && 4 !in others && forall j :: j in Group1(g) ==> j < cfg.n && j != 0
  {
    Group1Size(cfg, g);
  }

  /** Replica 0 appends, and replica 1 leads view 1. */
  lemma Opens1(cfg: Config, g: set<nat>, others: set<nat>) returns (s: System)
    requires Spare(cfg, g) && others == {1} + Group1(g)
    ensures Live(cfg, s) && |s.reps| == cfg.n && Leads(cfg, 1, s.reps[1], 1, [], {}) && Reporters(cfg, s, Group1(g), 1)
    ensures Sits(cfg, s.reps[0], 0, 0, [X1, X2], 0) && s.reps[4] == New(cfg)
  {
    hide Live, Initial, New, Sits, Reporters, Leads, Group1, Spare;
    Beginning(cfg);
    Outside1(cfg, g, others);
    assert |Initial(cfg).reps| == cfg.n by { LiveParts(cfg, Initial(cfg)); }
    var s1 := AppendsXX(cfg, Initial(cfg));
    s := View1(cfg, g, s1);
  }

  /** And view 2 is voted and reported for. */
  lemma Opening(cfg: Config, g: set<nat>) returns (s: System)
    requires Spare(cfg, g)
    ensures Live(cfg, s) && Pending2(cfg, g, s) && Voter(cfg, s, 2, 2, 0, [], 0, {}) && Behind(cfg, s.reps[4])
    ensures Sits(cfg, s.reps[3], 1, 0, [], 0) && Sits(cfg, s.reps[1], 1, 1, [], 0) && Sits(cfg, s.reps[0], 2, 0, [X1, X2], 0)
    ensures Reporters(cfg, s, g, 2)
  {
    assert cfg.n >= 5 by { SpareSize(cfg, g); }
    assert 1 !in Voters2(g) && 3 !in Voters2(g);
    hide Live, New, Sits, Voter, Reporters, Leads, Behind, Pending2, Spare, Voters2;
    var s1 := Opens1(cfg, g, {1} + Group1(g));
    assert Sits(cfg, s1.reps[1], 1, 1, [], 0) by { LeadsSits(cfg, 1, s1.reps[1], 1, []); }
    SomeReported(cfg, g, s1);
    s := View2(cfg, g, s1);
    assert |s.reps| == cfg.n by { LiveParts(cfg, s); }
  }

  lemma LeadsSits(cfg: Config, i: nat, r: Replica, v: nat, log: Log)
    requires Leads(cfg, i, r, v, log, {})
    ensures Sits(cfg, r, v, v, log, 0)
  {
  }

  lemma SomeReported(cfg: Config, g: set<nat>, s: System)
    requires Reporters(cfg, s, Group1(g), 1) && 3 < |s.reps|
    ensures Sits(cfg, s.reps[2], 1, 0, [], 0) && Sits(cfg, s.reps[3], 1, 0, [], 0) && Reporters(cfg, s, g, 1)
  {
    hide Sits;
    assert 2 in Group1(g) && 3 in Group1(g) && g <= Group1(g);
  }

  /** View 3 commits Y. */
  lemma Commits3(cfg: Config, g: set<nat>, s: System, all: set<nat>) returns (s': System)
    requires Spare(cfg, g) && Live(cfg, s) && |s.reps| == cfg.n && all == Voters3(g)
    requires Sits(cfg, s.reps[3], 1, 0, [], 0) && Sits(cfg, s.reps[1], 1, 1, [], 0) && Sits(cfg, s.reps[0], 2, 0, [X1, X2], 0)
    requires Reporters(cfg, s, g, 2)
    ensures Live(cfg, s') && |s'.reps| == cfg.n && Only(s, s', all)
    ensures Commit(3, 1) in s'.h.msgs && Sits(cfg, s'.reps[3], 3, 3, [Y], 1) && s'.reps[3].disk.lastNormal == 3
  {
    hide Live, Sits, Reporters, Leads, Spare, Voters3;
    var s1 := View3(cfg, g, s);
    s' := CommitsIn3(cfg, g, s1);
    OnlyBoth(s, s1, s', all, all, all);
  }

  /** Then replica 4 restores that, and reports it for view 2. */
  lemma Closing(cfg: Config, g: set<nat>, s: System) returns (s': System)
    requires Loose(cfg) && Spare(cfg, g) && Live(cfg, s) && Pending2(cfg, g, s) && Voter(cfg, s, 2, 2, 0, [], 0, {}) && Behind(cfg, s.reps[4])
    requires Sits(cfg, s.reps[3], 1, 0, [], 0) && Sits(cfg, s.reps[1], 1, 1, [], 0) && Sits(cfg, s.reps[0], 2, 0, [X1, X2], 0)
    requires Reporters(cfg, s, g, 2)
    ensures Live(cfg, s') && Pending2(cfg, g, s') && Voter(cfg, s', 2, 2, 0, [], 0, {}) && DoViewChange(2, 4, RY) in s'.h.msgs
    ensures s'.reps[3].commit == 1 && s'.reps[3].log == [Y]
  {
    Sizes2(cfg, g);
    var all := Voters3(g);
    assert 2 !in all && 4 !in all && 4 in Voters2(g) && |s.reps| == cfg.n;
    hide Live, Sits, Voter, Reporters, Behind, Spare, Voters2, Voters3, Loose;
    var s1 := Commits3(cfg, g, s, all);
    Pends(cfg, g, s, s1, all);
    VoterStays(cfg, s, s1, 2, 2, 0, [], 0, {}, all);
    var s2 := Restores4(cfg, s1);
    Pends(cfg, g, s1, s2, {3, 4});
    VoterStays(cfg, s1, s2, 2, 2, 0, [], 0, {}, {3, 4});
    s' := Reports4(cfg, s2, Voters2(g));
    Pends(cfg, g, s2, s', {4});
    VoterStays(cfg, s2, s', 2, 2, 0, [], 0, {}, {4});
  }

  /** Two replicas commit different entries at op 1, though every message may keep to the gate. */
  lemma RestoreBreaksAgreement(cfg: Config) returns (s: System)
    requires Loose(cfg)
    ensures Live(cfg, s) && |s.reps| == cfg.n
    ensures s.reps[2].commit == s.reps[3].commit == 1 && s.reps[2].log == [X1, X2] && s.reps[3].log == [Y]
  {
    hide Live, Sits, Voter, Reporters, Leads, Behind, Spare, Pending2;
    var g := SomeSpare(cfg);
    var s0 := Opening(cfg, g);
    var s1 := Closing(cfg, g, s0);
    s := Starts2(cfg, g, s1);
  }
}
