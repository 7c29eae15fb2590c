/** A new primary starts its view from a quorum of reports, and loses nothing by it. */
module Starting {
  import opened Types
  import opened Quorums
  import opened Protocol
  import opened Cluster
  import opened Invariant
  import opened Growth
  import opened Safety
  import opened Steps
  import opened Entering
  import opened Others
  import opened Handlers
  import opened Reads
  import opened Leading

  /** The history once view `w` started with `log`. */
  function Started(h: History, w: nat, log: Log, o: Origin): History {
    h.(views := h.views[w := View(log, log, o, h.starts, !h.cfg.gated)], starts := h.starts + 1,
       reached := if h.cfg.gated then h.reached else Raise(h.reached, h.cfg.Primary(w), w))
  }

  /** The log the new primary starts from: what it committed, then the log that ranks highest. */
  function StartLog(r: Replica, best: Log): Log
    requires r.commit <= |r.log|
  {
    r.log[..r.commit] + Drop(best, r.commit)
  }

  ghost predicate ReadyToStart(h: History, i: nat, r: Replica) {
    && r.status == ViewChange && h.cfg.Primary(r.view) == i
    && r.dvcFrom.Keys != {} && |r.dvcFrom| >= h.cfg.Quorum()
    && Facts(h, i, r)
    && RecordedOk(h, i, r.status, r.view, Said(h, r), r.dvcFrom)
    && r.view !in h.views
  }

  function OriginOf(r: Replica, best: nat): Origin { Origin(r.dvcFrom, best, r.commit) }

  ghost predicate IsBest(r: Replica, best: nat) {
    best in r.dvcFrom && forall j :: j in r.dvcFrom ==> Ranks(r.dvcFrom[best], r.dvcFrom[j])
  }

  /** What a replica may take for committed now was settled before the next view starts. */
  lemma SettledNow(h: History, i: nat, v: nat, log: Log, c: nat)
    requires HistoryOk(h) && Certain(h, i, v, c) && Same(log, h.completed, 0, c) && v !in h.views
    ensures Settled(h, log, c, h.starts) && Earlier(h, v, c)
  {
    hide ViewsOk, ReportsKeep, CompletedOk, MsgsOk, ReachedOk, ConfirmsOk;
    if c > 0 {
      var u: nat :| ChosenFor(h, i, v, u, c);
      ChosenCompleted(h, u, c);
      ViewInit(h, u);
      assert Chosen(h, u, c) && u != v;
    }
  }

  lemma StartReport(h: History, i: nat, r: Replica, best: nat, j: nat)
    requires HistoryOk(h) && ReadyToStart(h, i, r) && IsBest(r, best) && j in r.dvcFrom
    ensures ReportedBy(h, r.view, h.starts, j, r.dvcFrom[j], r.dvcFrom[best])
  {
    hide HistoryOk, Certain, Facts;
    var d := r.dvcFrom[j];
    assert ReportOk(h, j, r.view, d);
    SettledNow(h, j, r.view, d.log, d.commit);
    assert h.views[d.lastNormal].born < h.starts by { BornEarlier(h, d.lastNormal); }
  }

  lemma BornEarlier(h: History, v: nat)
    requires HistoryOk(h) && v in h.views
    ensures h.views[v].born < h.starts
  {
    ViewInit(h, v);
  }

  lemma StartOrigin(h: History, i: nat, r: Replica, best: nat)
    requires HistoryOk(h) && ReadyToStart(h, i, r) && IsBest(r, best)
    ensures OriginOk(h, r.view, h.starts, StartLog(r, r.dvcFrom[best].log), OriginOf(r, best))
  {
    hide HistoryOk, Settled, Earlier, ReportedBy;
    var o, init := OriginOf(r, best), StartLog(r, r.dvcFrom[best].log);
    assert |o.reports.Keys| == |o.reports|;
    FactsHold(h, i, r);
    SettledNow(h, i, r.view, init, r.commit);
    forall j | j in o.reports
      ensures j < h.cfg.n && ReportedBy(h, r.view, h.starts, j, o.reports[j], o.reports[o.best])
    {
      StartReport(h, i, r, best, j);
      assert ReportOk(h, j, r.view, r.dvcFrom[j]);
    }
  }

  lemma StartedGrows(h: History, w: nat, log: Log, o: Origin)
    requires w !in h.views
    ensures Grows(h, Started(h, w, log, o))
  {
  }

  lemma StartedViews(h: History, w: nat, log: Log, o: Origin)
    requires ViewsOk(h) && w !in h.views && OriginOk(h, w, h.starts, log, o)
    ensures ViewsOk(Started(h, w, log, o))
  {
    var h' := Started(h, w, log, o);
    StartedGrows(h, w, log, o);
    hide OriginOk;
    assert ViewOk(h', w) by {
      OriginGrows(h, h', w, h.starts, log, o);
    }
    forall v | v in h'.views
      ensures ViewOk(h', v)
    {
      if v != w {
        assert ViewOk(h, v);
        ViewOkGrows(h, h', v);
      }
    }
  }

  lemma StartedReports(h: History, i: nat, w: nat, log: Log, o: Origin)
    requires ReportsKeep(h) && h.cfg.Primary(w) == i && w !in h.views
    requires i in o.reports ==> ReportKeeps(h.msgs, i, w, o.reports[i])
    ensures ReportsKeep(Started(h, w, log, o))
  {
    hide ReportKeeps;
  }

  lemma StartedOk(h: History, i: nat, w: nat, log: Log, o: Origin)
    requires HistoryOk(h) && h.cfg.Primary(w) == i && w !in h.views && OriginOk(h, w, h.starts, log, o)
    requires i in o.reports ==> ReportKeeps(h.msgs, i, w, o.reports[i])
    ensures HistoryOk(Started(h, w, log, o))
  {
    hide ViewsOk, OriginOk, ReportKeeps, ReportsKeep, MsgsOk, CompletedOk;
    var h' := Started(h, w, log, o);
    StartedGrows(h, w, log, o);
    StartedViews(h, w, log, o);
    StartedReports(h, i, w, log, o);
    MsgsGrow(h, h');
    CompletedGrows(h, h');
    assert ReachedOk(h') by {
      assert forall v: nat {:trigger OnRecord(h', v)} :: OnRecord(h', v) ==> OnRecord(h, v) || (v == w && !h.cfg.gated);
    }
  }

  /** Nothing chosen before is past the end of the log the view starts with. */
  lemma CommitsWithin(h: History, w: nat, log: Log, o: Origin, c: nat)
    requires HistoryOk(Started(h, w, log, o)) && w !in h.views && ChosenBy(h, w, c)
    ensures c <= |log| && ChosenBy(Started(h, w, log, o), w, c)
  {
    var h' := Started(h, w, log, o);
    StartedGrows(h, w, log, o);
    ChosenByGrows(h, h', w, c);
    if c > 0 {
      var u: nat :| u <= w && Chosen(h, u, c);
      ChosenGrows(h, h', u, c);
      ChosenKept(h', u, c, w);
    }
  }

  /** The view can start with `log`, committed up to `commit`. */
  ghost predicate Opens(h: History, i: nat, w: nat, log: Log, commit: nat) {
    Holds(h, w, log, commit) && Certain(h, i, w, commit)
  }

  lemma OpensOk(h: History, i: nat, r: Replica, log: Log, o: Origin, c: nat)
    requires HistoryOk(Started(h, r.view, log, o)) && r.view !in h.views && Facts(h, i, r)
    requires r.commit <= |log| && log[..r.commit] == r.log[..r.commit]
    requires c <= r.commit || (c <= |log| && ChosenBy(Started(h, r.view, log, o), r.view, c))
    ensures Opens(Started(h, r.view, log, o), i, r.view, log, Max(r.commit, c))
  {
    hide HistoryOk, ChosenBy, Certain;
    var h' := Started(h, r.view, log, o);
    StartedGrows(h, r.view, log, o);
    FactsHold(h, i, r);
    CertainGrows(h, h', i, r.view, r.commit);
    assert Holds(h', r.view, log, r.commit) by { SameStart(log, r.log, r.commit); }
    if c > r.commit {
      DecidedOk(h', r.view, c);
      HoldsMore(h', r.view, log, r.commit, c);
      ChosenByCertain(h', i, r.view, c);
    }
  }

  lemma StartCoreOk(h: History, i: nat, r: Replica, log: Log, o: Origin, commit: nat)
    requires RepCore(h, i, r) && h.cfg.Primary(r.view) == i && r.status == ViewChange && r.view !in h.views
    requires r.commit <= commit <= |log| && Opens(Started(h, r.view, log, o), i, r.view, log, commit) && r.commit <= |r.log|
    requires log[..r.commit] == r.log[..r.commit]
    requires i in o.reports ==> ReportKeeps(Said(h, r), i, r.view, o.reports[i])
    ensures RepCore(Started(h, r.view, log, o), i, Enter(r, r.view, log, commit))
  {
    hide EarlyOk, BoxesOk, ReportsOk, AcksOk, StatusOk, LeadsOk, ExecutionOk, ExecutedOk, WritesOk, AnswersOk, ImageOk, BoxOk, MsgOk,
      ReportOk, ReportKeeps, Grows, Started, Opens;
    var h', r' := Started(h, r.view, log, o), Enter(r, r.view, log, commit);
    StartedGrows(h, r.view, log, o);
    StartedSame(h, r.view, log, o);
    PartsGrow(h, h', i, r);
    InChange(h, i, r);
    assert ImageOk(h', i, Snapshot(r')) by { NewImage(h, i, r, log, o, commit); }
    StartPipeline(h, h', i, r, log, commit);
    BoxesLater(h, h', i, r, log);
    StartSaid(h, i, r, log, o, commit);
  }

  lemma StartedSame(h: History, w: nat, log: Log, o: Origin)
    ensures var h' := Started(h, w, log, o); h'.cfg == h.cfg && h'.msgs == h.msgs && h'.completed == h.completed
  {
  }

  lemma StartPipeline(h: History, h': History, i: nat, r: Replica, log: Log, commit: nat)
    requires RepCore(h, i, r) && Grows(h, h') && r.status == ViewChange
    requires r.commit <= commit <= |log| && r.commit <= |r.log| && log[..r.commit] == r.log[..r.commit]
    ensures var latest, changed := Latest(r.out, r.disk), MarkChanged(r.changed, r.commit + 1);
            && WritesOk(|r.flushed|, log, changed, r.durable, latest.log, r.disk.log)
            && ExecutedOk(commit, log, latest.log, r.disk.log, r.sm, r.flushed)
            && ExecutionOk(h', i, Image(r.view, r.view, commit, log), changed, r.durable, latest, r.disk, |r.sm|)
  {
    hide EarlyOk, BoxesOk, ReportsOk, AcksOk, LeadsOk, AnswersOk, ImageOk, RecordedOk, AckedOk, CatchingUpOk, Grows, ExecutionOk, WritesOk;
    var latest := Latest(r.out, r.disk);
    SameStart(log, r.log, r.commit);
    WritesChange(|r.flushed|, r.log, r.changed, r.durable, latest.log, r.disk.log, log, r.commit + 1, |r.flushed|);
    MarkedFromOne(|r.flushed|, r.log, r.changed, r.durable, latest.log, r.disk.log);
    ExecutionGrows(h, h', i, Snapshot(r), r.changed, r.durable, latest, r.disk, |r.sm|);
    ExecutionChange(h', i, Snapshot(r), r.changed, r.durable, latest, r.disk, |r.sm|, Image(r.view, r.view, commit, log), r.commit + 1);
    assert r.sm <= log by {
      assert r.sm <= r.log[..r.commit];
    }
  }

  lemma BoxesLater(h: History, h': History, i: nat, r: Replica, log: Log)
    requires RepCore(h, i, r) && Grows(h, h') && r.status == ViewChange
    ensures BoxesOk(h', i, r.view, log, r.out, r.disk, r.waiting, r.outbox)
  {
    hide BoxOk, Grows;
    InChange(h, i, r);
    BoxesChange(h, i, r, r.view, log);
    BoxGrows(h, h', i, r.waiting, Latest(r.out, r.disk).lastNormal, Latest(r.out, r.disk).log);
    BoxGrows(h, h', i, r.outbox, r.view, log);
  }

  lemma StartSaid(h: History, i: nat, r: Replica, log: Log, o: Origin, commit: nat)
    requires RepCore(h, i, r) && h.cfg.Primary(r.view) == i && r.status == ViewChange && r.view !in h.views
    requires i in o.reports ==> ReportKeeps(Said(h, r), i, r.view, o.reports[i])
    ensures var h', mem := Started(h, r.view, log, o), Image(r.view, r.view, commit, log);
            && StatusOk(h', i, Normal, mem, r.disk) && LeadsOk(h', i, mem, r.disk)
            && AcksOk(h'.msgs, i, mem, r.out, r.disk, r.waiting, r.outbox)
            && ReportsOk(h', i, r.view, r.out, r.disk, r.waiting, r.outbox)
  {
    hide EarlyOk, ReportsUpTo, ReportsKeepAcks, ExecutionOk, ExecutedOk, WritesOk, AnswersOk, ImageOk, BoxesOk, ReportKeeps, AckedOk, RecordedOk;
  }

  lemma InChange(h: History, i: nat, r: Replica)
    requires RepCore(h, i, r) && r.status == ViewChange
    ensures r.lastNormal < r.view
  {
  }

  lemma NewImage(h: History, i: nat, r: Replica, log: Log, o: Origin, commit: nat)
    requires h.cfg.Primary(r.view) == i && Opens(Started(h, r.view, log, o), i, r.view, log, commit)
    ensures ImageOk(Started(h, r.view, log, o), i, Snapshot(Enter(r, r.view, log, commit)))
  {
  }

  lemma StartLeaderOk(h: History, i: nat, mem: Image, log: Log, o: Origin, commit: nat, q: Rounds, early: set<Message>)
    requires HistoryOk(h) && HistoryOk(Started(h, mem.view, log, o)) && mem.view !in h.views && EarlyOk(h, i, early)
    requires q.viewStart == |log| && q.queries == [] && q.round == q.done == 0 && !q.unsent && forall j :: 0 <= j < |q.confirmed| ==> q.confirmed[j] == 0
    ensures LeaderOk(Started(h, mem.view, log, o), i, Image(mem.view, mem.view, commit, log), q, early)
  {
    var w, h' := mem.view, Started(h, mem.view, log, o);
    forall x: nat
      ensures ConfirmView(w, x) !in h.msgs && ConfirmView(w, x) !in early
    {
      assert ConfirmView(w, x) in h.msgs ==> SentOk(h, ConfirmView(w, x));
      assert ConfirmView(w, x) in early ==> MsgOk(h, i, ConfirmView(w, x));
    }
    KnowsAtStart(h, w, log, o, commit);
  }

  lemma KnowsAtStart(h: History, w: nat, log: Log, o: Origin, commit: nat)
    requires HistoryOk(h) && HistoryOk(Started(h, w, log, o)) && w !in h.views
    ensures KnowsCompleted(Started(h, w, log, o), w, commit)
  {
    hide ReportsKeep, ViewsOk, MsgsOk, ReachedOk, ConfirmsOk;
    var h' := Started(h, w, log, o);
    if h.completed != [] {
      var u: nat :| Chosen(h, u, |h.completed|) && h.completed <= h.views[u].log;
      ChosenOnRecord(h, u, |h.completed|);
      if u > w {
        assert OnRecord(h', u);
      } else {
        StartedGrows(h, w, log, o);
        ChosenGrows(h, h', u, |h.completed|);
        ChosenKept(h', u, |h.completed|, w);
      }
    }
  }

  // ---------------------------------------------------------------------------
  // Starting a view

  lemma MaxCommitWithin(h: History, i: nat, r: Replica, log: Log, o: Origin, k: nat)
    requires HistoryOk(Started(h, r.view, log, o)) && r.view !in h.views && Facts(h, i, r) && OwnReportOk(i, r.dvcFrom, r.commit)
    requires RecordedOk(h, i, r.status, r.view, Said(h, r), r.dvcFrom)
    ensures var c := MaxCommit(r.dvcFrom, k);
            c <= r.commit || (c <= |log| && ChosenBy(Started(h, r.view, log, o), r.view, c))
  {
    hide HistoryOk, RecordedOk, ChosenBy, Certain;
    var c := MaxCommit(r.dvcFrom, k);
    if c > r.commit {
      var j :| j in r.dvcFrom && j < k && r.dvcFrom[j].commit == c;
      ReportPart(h, i, r, j);
      CertainChosen(h, j, r.view, c, i);
      CommitsWithin(h, r.view, log, o, c);
    }
  }

  lemma ReportPart(h: History, i: nat, r: Replica, j: nat)
    requires RecordedOk(h, i, r.status, r.view, Said(h, r), r.dvcFrom) && j in r.dvcFrom
    ensures j < h.cfg.n && Certain(h, j, r.view, r.dvcFrom[j].commit)
  {
    assert ReportOk(h, j, r.view, r.dvcFrom[j]);
  }

  lemma StartParts(h: History, i: nat, r: Replica)
    requires RepOk(h, i, r) && r.status == ViewChange && h.cfg.Primary(r.view) == i
    ensures RecordedOk(h, i, r.status, r.view, Said(h, r), r.dvcFrom) && r.view !in h.views && EarlyOk(h, i, r.early)
    ensures |r.q.confirmed| == h.cfg.n && OwnReportOk(i, r.dvcFrom, r.commit)
    ensures i in r.dvcFrom ==> ReportKeeps(Said(h, r), i, r.view, r.dvcFrom[i]) && ReportKeeps(h.msgs, i, r.view, r.dvcFrom[i])
  {
    hide BoxesOk, AcksOk, ReportsOk, EarlyOk, LeaderOk, WritesOk, ExecutedOk, ExecutionOk, AckedOk, AnswersOk;
    if i in r.dvcFrom {
      assert ReportKeeps(Said(h, r), i, r.view, r.dvcFrom[i]);
    }
  }

  lemma PickBest(h: History, i: nat, r: Replica) returns (best: nat)
    requires RecordedOk(h, i, r.status, r.view, Said(h, r), r.dvcFrom) && |r.dvcFrom| > 0
    ensures Best(r.dvcFrom, h.cfg.n) == Some(best) && IsBest(r, best)
  {
    assert r.dvcFrom.Keys != {} by {
      assert |r.dvcFrom.Keys| == |r.dvcFrom|;
    }
    var j :| j in r.dvcFrom.Keys;
    assert j < h.cfg.n && ReportOk(h, j, r.view, r.dvcFrom[j]);
    best := Best(r.dvcFrom, h.cfg.n).value;
    forall j | j in r.dvcFrom
      ensures Ranks(r.dvcFrom[best], r.dvcFrom[j])
    {
      assert ReportOk(h, j, r.view, r.dvcFrom[j]);
    }
  }

  lemma StartEnters(h: History, i: nat, r: Replica, log: Log, o: Origin, commit: nat, to: int)
    requires HistoryOk(h) && HistoryOk(Started(h, r.view, log, o)) && RepOk(h, i, r)
    requires h.cfg.Primary(r.view) == i && r.status == ViewChange && r.view !in h.views && |r.q.confirmed| == h.cfg.n
    requires r.commit <= commit <= |log| && r.commit <= |r.log| && Opens(Started(h, r.view, log, o), i, r.view, log, commit)
    requires log[..r.commit] == r.log[..r.commit] && to <= r.commit && to <= DurableOp(r)
    requires i in o.reports ==> ReportKeeps(Said(h, r), i, r.view, o.reports[i])
    ensures RepOk(Started(h, r.view, log, o), i, Enter(Execute(r, to), r.view, log, commit).(origin := o))
  {
    hide HistoryOk, RepCore, LeaderOk, Opens, ReportKeeps;
    ExecuteOk(h, i, r, to);
    var r1 := Execute(r, to);
    EarlyPart(h, i, r1);
    StartCoreOk(h, i, r1, log, o, commit);
    var r2 := Enter(r1, r.view, log, commit);
    StartLeaderOk(h, i, Snapshot(r), log, o, commit, r2.q, r1.early);
    OriginFree(Started(h, r.view, log, o), i, r2, o);
  }

  lemma EarlyPart(h: History, i: nat, r: Replica)
    requires RepCore(h, i, r)
    ensures EarlyOk(h, i, r.early)
  {
  }

  lemma OriginFree(h: History, i: nat, r: Replica, o: Origin)
    requires RepOk(h, i, r)
    ensures RepOk(h, i, r.(origin := o))
  {
    hide ImagesOk, StatusOk, LeadsOk, CatchingUpOk, BoxesOk, AcksOk, ReportsOk, RecordedOk, WritesOk, ExecutedOk,
      ExecutionOk, AckedOk, EarlyOk, AnswersOk, LeaderOk;
  }

  /** `TryStartView`, step by step. */
  lemma StartShape(cfg: Config, i: nat, r: Replica, best: nat)
    requires Best(r.dvcFrom, cfg.n) == Some(best) && r.commit <= |r.log| && r.status == ViewChange
    requires r.changed.Some? ==> r.changed.value >= 1
    ensures var log, o, c := StartLog(r, r.dvcFrom[best].log), OriginOf(r, best), MaxCommit(r.dvcFrom, cfg.n);
            var r' := Enter(Execute(r, InstalledUpTo(r, r.view, log, c)), r.view, log, Max(r.commit, c)).(origin := o);
            && TryStartView(cfg, i, r) == Send(r', StartView(r.view, log, Max(r.commit, c)))
            && r'.view == r'.lastNormal == r.view && r'.log == log && r'.commit == Max(r.commit, c)
  {
    hide Best, MaxCommit, CommitUpTo;
    var log, c := StartLog(r, r.dvcFrom[best].log), MaxCommit(r.dvcFrom, cfg.n);
    assert log[..r.commit] == r.log[..r.commit];
    InstalledShape(cfg, i, r, r.view, log, c);
  }

  /** The view starts: the history records it, and the replica leads it. */
  lemma TryStartKeeps(h: History, i: nat, r: Replica) returns (h': History)
    requires HistoryOk(h) && RepOk(h, i, r) && r.status == ViewChange && h.cfg.Primary(r.view) == i
    requires |r.dvcFrom| >= h.cfg.Quorum()
    ensures var r' := TryStartView(h.cfg, i, r);
            && r'.view == r'.lastNormal == r.view && r.view !in h.views && r'.commit <= |h.completed|
            && h' == Started(h, r.view, r'.log, r'.origin) && HistoryOk(h') && RepOk(h', i, r')
  {
    hide HistoryOk, RepOk, OriginOk, ChosenBy, WritesOk, RecordedOk, EarlyOk, Execute, Enter, TryStartView, ReportKeeps,
      InstalledUpTo, Best, MaxCommit, Opens;
    RepFacts(h, i, r);
    StartParts(h, i, r);
    var best := PickBest(h, i, r);
    var log, o := StartLog(r, r.dvcFrom[best].log), OriginOf(r, best);
    StartOrigin(h, i, r, best);
    StartedOk(h, i, r.view, log, o);
    h' := Started(h, r.view, log, o);
    var c := MaxCommit(r.dvcFrom, h.cfg.n);
    MaxCommitWithin(h, i, r, log, o, h.cfg.n);
    assert log[..r.commit] == r.log[..r.commit];
    OpensOk(h, i, r, log, o, c);
    var to := InstalledUpTo(r, r.view, log, c);
    InstalledWithin(r, r.view, log, c) by { SameStart(log, r.log, r.commit); }
    StartEnters(h, i, r, log, o, Max(r.commit, c), to);
    StartSends(h', i, r, log, o, Max(r.commit, c), to);
    StartShape(h.cfg, i, r, best);
  }

  lemma StartSends(h: History, i: nat, r: Replica, log: Log, o: Origin, commit: nat, to: int)
    requires RepOk(h, i, Enter(Execute(r, to), r.view, log, commit).(origin := o)) && Opens(h, i, r.view, log, commit)
    requires r.view in h.views && h.cfg.Primary(r.view) == i && h.views[r.view].init == h.views[r.view].log == log
    ensures RepOk(h, i, Send(Enter(Execute(r, to), r.view, log, commit).(origin := o), StartView(r.view, log, commit)))
    ensures commit <= |h.completed|
  {
    SendOk(h, i, Enter(Execute(r, to), r.view, log, commit).(origin := o), StartView(r.view, log, commit));
  }
}
