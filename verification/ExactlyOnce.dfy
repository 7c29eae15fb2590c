/** Exactly once across the cluster: when every primary appends requests by its client table, what any
    replica commits, in any state of any run, executes each request at most once and in order. */
module ExactlyOnce {
  import opened Types
  import opened Quorums
  import opened Protocol
  import opened Cluster
  import opened Invariant
  import opened Growth
  import opened Safety
  import opened Steps
  import opened Entering
  import opened Handlers
  import opened Reads
  import opened Leading
  import opened Starting
  import opened Changing
  import opened Restoring
  import opened Running
  import opened Agreement
  import Sessions
  import Ordering

  type Limits = Sessions.Limits

  /** The primary goes by its client table, which is that of the ops it has executed, and by the
      entries in its log after those. */
  ghost predicate Admits(lim: Limits, r: Replica, e: LogEntry) {
    e.Register? || Ordering.Accepts(lim, r.log, |r.sm|, e.client, e.session, e.number)
  }

  ghost predicate OrderlyStep(lim: Limits, s: System, e: Event, s': System) {
    && Enabled(s, e) && s' == Step(s, e)
    && (e.Act? && e.input.ClientEntry? ==> Admits(lim, s.reps[e.i], e.input.entry))
  }

  /** A run in which primaries append only what their client tables admit. */
  ghost predicate OrderlyRun(lim: Limits, cfg: Config, run: seq<System>) {
    && IsRun(cfg, run)
    && forall k {:trigger run[k]} :: 0 <= k < |run| - 1 ==> IsOrderly(lim, run[k], run[k + 1])
  }

  ghost predicate IsOrderly(lim: Limits, s: System, s': System) {
    exists e :: OrderlyStep(lim, s, e, s')
  }

  /** The logs of views that start in time, as every view does that chooses something. */
  ghost predicate ViewLogsGood(lim: Limits, h: History) {
    forall v {:trigger h.views[v]} :: v in h.views && InTime(h, v) ==> Ordering.Good(lim, h.views[v].log)
  }

  // ---------------------------------------------------------------------------
  // A view's log comes from an earlier view's

  /** The report chosen for view `w` has nothing of a view past its own last normal one. */
  lemma BestInView(h: History, w: nat, x: nat)
    requires HistoryOk(h) && w in h.views && w > 0 && InTime(h, w)
    ensures var o := h.views[w].origin;
            && o.best in o.reports && o.reports[o.best].lastNormal < w && o.reports[o.best].lastNormal in h.views
    ensures var d := h.views[w].origin.reports[h.views[w].origin.best];
            x < |d.log| ==> x < |h.views[d.lastNormal].log| && d.log[x] == h.views[d.lastNormal].log[x]
  {
    HistoryParts(h);
    hide HistoryOk, ViewsOk, ReportsKeep, CompletedOk, OriginLog, InTime;
    OriginParts(h, w);
    var o := h.views[w].origin;
    var d := o.reports[o.best];
    if x < d.commit {
      ReportSettled(h, w, d, d, x);
      var u := SettledEarlier(h, w, d.log, d.commit);
      if u > d.lastNormal {
        var j := SomeReportKeeps(h, u, d.commit, w, o);
        assert false;
      }
      KeptHolds(h, u, d.commit, d.lastNormal);
    }
  }

  /** What a report has as committed is what any view chose of it. */
  lemma ReportSettled(h: History, w: nat, d: Report, best: Report, x: nat)
    requires ViewsOk(h) && ReportsKeep(h) && w in h.views && Settled(h, d.log, d.commit, Born(h, w)) && x < d.commit
    ensures x < |d.log| && forall u: nat {:trigger Chosen(h, u, d.commit)} :: Chosen(h, u, d.commit) ==> d.log[x] == h.views[u].log[x]
  {
    hide ViewsOk, ReportsKeep;
    var v: nat :| Chosen(h, v, d.commit) && h.views[v].born < Born(h, w) && Same(d.log, h.views[v].log, 0, d.commit);
    forall u: nat | Chosen(h, u, d.commit)
      ensures d.log[x] == h.views[u].log[x]
    {
      ChosenAgree(h, v, d.commit, u, d.commit, x, Born(h, u) + Born(h, v) + 1);
    }
  }

  /** A view that starts in time starts with the log it chose: what its primary had committed is in it. */
  lemma StartsWithBest(h: History, w: nat)
    requires HistoryOk(h) && w in h.views && w > 0 && InTime(h, w)
    ensures var o := h.views[w].origin;
            && o.best in o.reports && h.views[w].init == o.reports[o.best].log
            && o.reports[o.best].lastNormal < w && o.reports[o.best].lastNormal in h.views && InTime(h, o.reports[o.best].lastNormal)
            && o.reports[o.best].log <= h.views[o.reports[o.best].lastNormal].log
  {
    HistoryParts(h);
    BestInTime(h, w) by { hide HistoryOk, ViewsOk, ReportsKeep; }
    hide HistoryOk, ViewsOk, ReportsKeep, CompletedOk, InTime;
    OriginParts(h, w);
    var o, init := h.views[w].origin, h.views[w].init;
    var best := o.reports[o.best];
    forall x | 0 <= x < o.kept
      ensures x < |best.log| && init[x] == best.log[x]
    {
      KeptIsBest(h, w, x);
    }
    if o.kept > 0 {
      KeptIsBest(h, w, o.kept - 1);
    }
    assert init == best.log;
    BestInView(h, w, 0);
    forall x | 0 <= x < |best.log|
      ensures x < |h.views[best.lastNormal].log| && best.log[x] == h.views[best.lastNormal].log[x]
    {
      BestInView(h, w, x);
    }
    if best.log != [] {
      BestInView(h, w, |best.log| - 1);
    }
  }

  lemma KeptIsBest(h: History, w: nat, x: nat)
    requires ViewsOk(h) && ReportsKeep(h) && w in h.views && w > 0 && InTime(h, w) && x < h.views[w].origin.kept
    ensures var o, init := h.views[w].origin, h.views[w].init;
            o.best in o.reports && x < |o.reports[o.best].log| && x < |init| && init[x] == o.reports[o.best].log[x]
  {
    hide ViewsOk, ReportsKeep, InTime;
    OriginParts(h, w);
    var o, init := h.views[w].origin, h.views[w].init;
    ReportSettled(h, w, Report(0, init, o.kept), Report(0, init, o.kept), x);
    var u := SettledEarlier(h, w, init, o.kept);
    BestHolds(h, u, o.kept, w, x);
  }

  lemma StartGood(lim: Limits, h: History, w: nat)
    requires HistoryOk(h) && w in h.views && InTime(h, w)
    requires forall v {:trigger h.views[v]} :: v in h.views && v < w && InTime(h, v) ==> Ordering.Good(lim, h.views[v].log)
    ensures Ordering.Good(lim, h.views[w].init)
  {
    hide Ordering.Good, InTime;
    if w == 0 {
      assert ViewOk(h, 0);
      EmptyGood(lim);
    } else {
      StartsWithBest(h, w);
      var o := h.views[w].origin;
      var best := o.reports[o.best];
      Ordering.PrefixGood(lim, h.views[best.lastNormal].log, |best.log|);
      assert h.views[best.lastNormal].log[..|best.log|] == best.log;
    }
  }

  lemma EmptyGood(lim: Limits)
    ensures Ordering.Good(lim, [])
  {
  }

  // ---------------------------------------------------------------------------
  // Steps

  /** Views on record stay on with what was acknowledged in them, and every view keeps its start number. */
  ghost predicate GoesOn(h: History, h': History) {
    && h'.cfg == h.cfg && h.msgs <= h'.msgs
    && (forall v {:trigger OnRecord(h, v)} :: OnRecord(h, v) ==> v in h'.views && |h.views[v].log| <= |h'.views[v].log|)
    && (forall v {:trigger h'.views[v]} :: v in h.views && v in h'.views ==> h'.views[v].born == h.views[v].born)
  }

  /** A view that turns out to have started in time never seemed not to. */
  lemma InTimeBefore(h: History, h': History, w: nat)
    requires HistoryOk(h) && GoesOn(h, h') && InTime(h', w) && w in h.views && w in h'.views
    ensures InTime(h, w)
  {
    hide ViewsOk, ReportsKeep, CompletedOk, ConfirmsOk, ReachedOk;
    forall u: nat, c: nat | h.cfg.Strays() && c > 0 && Chosen(h, u, c) && Born(h, u) < Born(h, w)
      ensures u < w
    {
      ChosenOnRecord(h, u, c);
      var q :| AckQuorum(h, u, c, q);
      forall j | j in q
        ensures Acked(h', u, c, j)
      {
        assert Acked(h, u, c, j);
      }
      assert AckQuorum(h', u, c, q) && Chosen(h', u, c);
    }
  }

  /** A step that appends nothing as a primary: views keep their logs, and a new one has its first. */
  ghost predicate LogsKept(h: History, h': History) {
    GoesOn(h, h') &&
    forall w {:trigger h'.views[w]} :: w in h'.views ==>
      h'.views[w].log == if w in h.views then h.views[w].log else h'.views[w].init
  }

  lemma QuietKept(h: History, i: nat, r: Replica, r': Replica)
    requires Quiet(h, i, r, r')
    ensures LogsKept(h, Acted(h, i, r, r'))
  {
    hide RepOk;
    QuietActed(h, i, r, r');
  }

  lemma MovesKept(h: History, i: nat, r: Replica, r': Replica, h': History)
    requires Moves(h, i, r, r', h')
    ensures LogsKept(h, Acted(h, i, r, r'))
  {
    hide RepOk, HistoryOk;
    if h' == h && Quiet(h, i, r, r') {
      QuietKept(h, i, r, r');
    }
  }

  lemma ConfirmKept(h: History, i: nat, r: Replica, v: nat, round: nat)
    requires HistoryOk(h) && RepOk(h, i, r) && ConfirmView(v, round) in h.msgs
    ensures LogsKept(h, Acted(h, i, r, OnConfirmView(h.cfg, i, r, v, round)))
  {
    hide RepOk, HistoryOk;
    if v != r.view || h.cfg.Primary(v) == i {
      RepFacts(h, i, r);
      QuietKept(h, i, r, r);
    } else {
      var h' := h.(confirms := h.confirms + {ConfirmViewOk(v, round, i)});
      ConfirmViewKeeps(h, h', i, r, v, round);
      QuietActed(h', i, r, OnConfirmView(h.cfg, i, r, v, round));
    }
  }

  lemma AckKept(h: History, i: nat, r: Replica, v: nat, op: nat, from: nat)
    requires HistoryOk(h) && RepOk(h, i, r)
    ensures LogsKept(h, Acted(h, i, r, OnPrepareOk(h.cfg, i, r, v, op, from)))
  {
    hide RepOk, HistoryOk, RegisterAck;
    RepFacts(h, i, r);
    if v != r.view || h.cfg.Primary(r.view) != i || r.status != Normal {
      QuietKept(h, i, r, r);
    } else {
      AckFrame(h.cfg, i, r, from, op);
      assert h.views[r.view].(log := r.log) == h.views[r.view];
    }
  }

  lemma MessageKept(h: History, i: nat, r: Replica, m: Message)
    requires HistoryOk(h) && RepOk(h, i, r) && m in h.msgs && SentTo(h.cfg, i, m)
    ensures LogsKept(h, Acted(h, i, r, OnMessage(h.cfg, i, r, m)))
  {
    hide HistoryOk, RepOk, SentOk, Quiet, Moves, LogsKept, Acted;
    hide OnPrepare, OnPrepareOk, OnCommit, OnGetState, OnNewState, OnStartViewChange, OnDoViewChange, OnStartView,
      OnConfirmView, OnConfirmViewOk;
    SentPart(h, m);
    match m
    case Prepare(v, op, e, c) => PrepareKeeps(h, i, r, v, op, e, c); QuietKept(h, i, r, OnMessage(h.cfg, i, r, m));
    case PrepareOk(v, op, j) => AckKept(h, i, r, v, op, j);
    case Commit(v, c) => CommitKeeps(h, i, r, v, c); QuietKept(h, i, r, OnMessage(h.cfg, i, r, m));
    case GetState(j, to, v, op) => GetStateKeeps(h, i, r, j, to, v, op); QuietKept(h, i, r, OnMessage(h.cfg, i, r, m));
    case NewState(j, _, v, s, es, c) => NewStateKeeps(h, i, r, j, v, s, es, c); QuietKept(h, i, r, OnMessage(h.cfg, i, r, m));
    case StartView(v, log, c) => StartViewKeeps(h, i, r, v, log, c); QuietKept(h, i, r, OnMessage(h.cfg, i, r, m));
    case ConfirmView(v, round) => ConfirmKept(h, i, r, v, round);
    case ConfirmViewOk(v, round, j) => ConfirmViewOkKeeps(h, i, r, v, round, j); QuietKept(h, i, r, OnMessage(h.cfg, i, r, m));
    case StartViewChange(v, j) =>
      var h' := StartViewChangeKeeps(h, i, r, v, j);
      MovesKept(h, i, r, OnMessage(h.cfg, i, r, m), h');
    case DoViewChange(v, j, d) =>
      var h' := DoViewChangeKeeps(h, i, r, v, j, d);
      MovesKept(h, i, r, OnMessage(h.cfg, i, r, m), h');
  }

  lemma InputKept(h: History, i: nat, r: Replica, input: Input)
    requires HistoryOk(h) && RepOk(h, i, r) && !input.ClientEntry?
    requires input.Receive? ==> input.m in h.msgs && SentTo(h.cfg, i, input.m)
    ensures LogsKept(h, Acted(h, i, r, OnInput(h.cfg, i, r, input, h)))
  {
    hide HistoryOk, RepOk, Quiet, Moves, LogsKept, Acted;
    hide OnQuery, OnMessage, OnTimeout, OnIdlePrimary, OnIdleTransfer, OnIdleViewChange;
    var r' := OnInput(h.cfg, i, r, input, h);
    match input
    case Query(id) => QueryKeeps(h, i, r, id); QuietKept(h, i, r, r');
    case Receive(m) => MessageKept(h, i, r, m);
    case Timeout => TimeoutKeeps(h, i, r); QuietKept(h, i, r, r');
    case IdlePrimary(due) => IdlePrimaryKeeps(h, i, r, due); QuietKept(h, i, r, r');
    case IdleTransfer => IdleTransferKeeps(h, i, r); QuietKept(h, i, r, r');
    case IdleViewChange =>
      var h' := IdleViewChangeKeeps(h, i, r);
      MovesKept(h, i, r, r', h');
  }

  /** An entry a primary admits is the next of its view's log. */
  lemma EntryGood(lim: Limits, h: History, i: nat, r: Replica, e: LogEntry, v: nat)
    requires lim.Valid() && HistoryOk(h) && RepOk(h, i, r) && ViewLogsGood(lim, h) && Admits(lim, r, e)
    requires v in Acted(h, i, r, OnRequest(h.cfg, i, r, e)).views && InTime(Acted(h, i, r, OnRequest(h.cfg, i, r, e)), v)
    ensures Ordering.Good(lim, Acted(h, i, r, OnRequest(h.cfg, i, r, e)).views[v].log)
  {
    hide HistoryOk, RepOk, Ordering.Good, Ordering.Accepts, InTime, Acted, OnRequest, GoesOn;
    var h' := Acted(h, i, r, OnRequest(h.cfg, i, r, e));
    EntryGoesOn(h, i, r, e);
    InTimeBefore(h, h', v);
    if h'.views[v].log != h.views[v].log {
      assert Ordering.Good(lim, r.log);
      if e.Register? {
        Ordering.AppendRegisterGood(lim, r.log, e.client);
      } else {
        Ordering.AppendRequestGood(lim, r.log, |r.sm|, e.client, e.session, e.number, e.answered, e.op);
      }
    }
  }

  /** Only the log of the view that the primary leads grows, by the entry. */
  lemma EntryGoesOn(h: History, i: nat, r: Replica, e: LogEntry)
    requires HistoryOk(h) && RepOk(h, i, r)
    ensures var h' := Acted(h, i, r, OnRequest(h.cfg, i, r, e));
            && GoesOn(h, h') && h'.views.Keys == h.views.Keys
            && forall v {:trigger h'.views[v]} :: v in h'.views ==>
                 h'.views[v].log == h.views[v].log || (r.log == h.views[v].log && h'.views[v].log == r.log + [e])
  {
    hide HistoryOk, RepOk;
    RepFacts(h, i, r);
    if h.cfg.Primary(r.view) != i || r.status != Normal {
      QuietActed(h, i, r, r);
    } else {
      assert r.log == h.views[r.view].log;
    }
  }

  lemma KeptGood(lim: Limits, h: History, h': History)
    requires HistoryOk(h) && HistoryOk(h') && ViewLogsGood(lim, h) && LogsKept(h, h')
    requires forall v {:trigger h'.views[v]} :: v in h'.views && v !in h.views ==> forall u {:trigger h'.views[u]} :: u in h'.views && u < v ==> u in h.views
    ensures ViewLogsGood(lim, h')
  {
    hide HistoryOk, Ordering.Good, InTime;
    forall v | v in h'.views && InTime(h', v)
      ensures Ordering.Good(lim, h'.views[v].log)
    {
      if v !in h.views {
        forall u | u in h'.views && u < v && InTime(h', u)
          ensures Ordering.Good(lim, h'.views[u].log)
        {
          assert h'.views[v] == h'.views[v];
          assert h'.views[u].log == h.views[u].log;
          InTimeBefore(h, h', u);
        }
        StartGood(lim, h', v);
      } else {
        InTimeBefore(h, h', v);
        assert h'.views[v].log == h.views[v].log;
      }
    }
  }

  /** At most one view starts in a step. */
  lemma OneStarts(h: History, i: nat, r: Replica, r': Replica)
    ensures var h' := Acted(h, i, r, r');
            h'.cfg == h.cfg && forall v, u :: v in h'.views && v !in h.views && u in h'.views && u != v ==> u in h.views
  {
  }

  lemma StepGood(lim: Limits, s: System, e: Event)
    requires lim.Valid() && Inv(s) && Enabled(s, e) && Inv(Step(s, e)) && ViewLogsGood(lim, s.h)
    requires e.Act? && e.input.ClientEntry? ==> Admits(lim, s.reps[e.i], e.input.entry)
    ensures ViewLogsGood(lim, Step(s, e).h)
  {
    hide Inv, HistoryOk, RepOk, Ordering.Good, OnInput, Restored, Persisted, Restart, Admits, Acted, Establish, Forget, InTime, GoesOn;
    RepPart(s, e.i);
    HistoryPart(s);
    HistoryPart(Step(s, e));
    var h, i, r := s.h, e.i, s.reps[e.i];
    var h' := Step(s, e).h;
    match e
    case Act(_, input) =>
      if input.ClientEntry? {
        assert OnInput(h.cfg, i, r, input, h) == OnRequest(h.cfg, i, r, input.entry) by { EntryInput(h, i, r, input); }
        forall v | v in h'.views && InTime(h', v)
          ensures Ordering.Good(lim, h'.views[v].log)
        {
          EntryGood(lim, h, i, r, input.entry, v);
        }
      } else {
        InputKept(h, i, r, input);
        OneStarts(h, i, r, OnInput(h.cfg, i, r, input, h));
        KeptGood(lim, h, h');
      }
    case Restore(_, m, k) =>
      RestoreKeeps(h, i, r, m, k);
      QuietKept(h, i, r, Restored(h.cfg, i, r, m, k));
      OneStarts(h, i, r, Restored(h.cfg, i, r, m, k));
      KeptGood(lim, h, h');
    case Land(_, skip) =>
      EstablishKept(h, h', i, Persisted(h.cfg, i, r, skip).disk);
      KeptGood(lim, h, h');
    case Crash(_, landed) =>
      assert h.cfg.gated by { CrashesGated(h); }
      ForgetKept(h, h', i, r, if landed then r.out.value else r.disk);
      KeptGood(lim, h, h');
    case _ =>
      SameKept(h, h');
      KeptGood(lim, h, h');
  }

  /** Views go on record with the logs they have. */
  lemma EstablishKept(h: History, h': History, i: nat, disk: Image)
    requires h'.cfg == h.cfg && h.msgs <= h'.msgs && h'.views == Establish(h.cfg, i, disk, h.views)
    ensures LogsKept(h, h') && h'.views.Keys == h.views.Keys
  {
  }

  lemma SameKept(h: History, h': History)
    requires h'.cfg == h.cfg && h.msgs <= h'.msgs && h'.views == h.views
    ensures LogsKept(h, h')
  {
  }

  lemma CrashesGated(h: History)
    requires HistoryOk(h) && h.cfg.crashes
    ensures h.cfg.gated
  {
  }

  /** Those that are forgotten were not. */
  lemma ForgetKept(h: History, h': History, i: nat, r: Replica, disk: Image)
    requires RepOk(h, i, r) && h.cfg.gated && (disk == r.disk || r.out == Some(disk))
    requires h'.cfg == h.cfg && h'.msgs == h.msgs && h'.views == Forget(h.cfg, i, disk, Establish(h.cfg, i, disk, h.views))
    ensures LogsKept(h, h') && h'.views.Keys <= h.views.Keys
  {
    hide StatusOk, CatchingUpOk, AcksOk, ReportsOk, EarlyOk, BoxesOk, RecordedOk, AckedOk, OwnReportOk, WritesOk, ExecutedOk,
      ExecutionOk, AnswersOk, LeaderOk, ImageOk;
    forall v | OnRecord(h, v)
      ensures v in h'.views
    {
      assert h.views[v] == h.views[v];
    }
  }

  lemma EntryInput(h: History, i: nat, r: Replica, input: Input)
    requires input.ClientEntry?
    ensures OnInput(h.cfg, i, r, input, h) == OnRequest(h.cfg, i, r, input.entry)
  {
  }

  // ---------------------------------------------------------------------------
  // Runs

  lemma {:induction false} RunGood(lim: Limits, cfg: Config, run: seq<System>, k: nat)
    requires lim.Valid() && cfg.Sound() && OrderlyRun(lim, cfg, run) && k < |run|
    ensures ViewLogsGood(lim, run[k].h)
  {
    hide Inv, Step, Ordering.Good, Admits, InTime;
    if k == 0 {
      InitialGood(lim, cfg);
    } else {
      RunGood(lim, cfg, run, k - 1);
      RunOk(cfg, run, k - 1, k - 1);
      RunOk(cfg, run, k, k);
      assert IsOrderly(lim, run[k - 1], run[k - 1 + 1]);
      var e :| OrderlyStep(lim, run[k - 1], e, run[k - 1 + 1]);
      StepGood(lim, run[k - 1], e);
    }
  }

  lemma InitialGood(lim: Limits, cfg: Config)
    ensures ViewLogsGood(lim, Initial(cfg).h)
  {
  }

  /** What every replica has committed is good, and what the cluster has: requests execute at most once,
      each after all before it in its session.  So is a replica's whole log where the view it was last
      normal in started in time and covers what the replica knows to be committed; where none strays
      that holds of all but those in a view change. */
  lemma LogsGood(lim: Limits, cfg: Config, run: seq<System>, k: nat, i: nat)
    requires lim.Valid() && OrderlyRun(lim, cfg, run) && InRun(cfg, run, k, i)
    ensures i < |run[k].reps| && At(run, k, i).commit <= |At(run, k, i).log|
    ensures Ordering.Good(lim, run[k].h.completed) && Ordering.Good(lim, At(run, k, i).log[..At(run, k, i).commit])
    ensures var h, r := run[k].h, At(run, k, i);
            && (InTime(h, r.lastNormal) && ChosenBy(h, r.lastNormal, r.commit) ==> Ordering.Good(lim, r.log))
            && (!cfg.Strays() && r.status != ViewChange ==> InTime(h, r.lastNormal) && ChosenBy(h, r.lastNormal, r.commit))
  {
    hide Ordering.Good, OrderlyRun, HistoryOk, RepOk, IsRun, InTime, ChosenBy;
    StateOk(cfg, run, k, i);
    RunGood(lim, cfg, run, k);
    var h, r := run[k].h, At(run, k, i);
    RepFacts(h, i, r);
    EmptyGood(lim);
    if h.completed != [] {
      var u := CompletedView(h);
      Ordering.PrefixGood(lim, h.views[u].log, |h.completed|);
      assert h.views[u].log[..|h.completed|] == h.completed;
    }
    ImageCompleted(h, i, Snapshot(r));
    Ordering.PrefixGood(lim, h.completed, r.commit);
    assert r.log[..r.commit] == h.completed[..r.commit];
    if !cfg.Strays() && r.status != ViewChange {
      assert ChosenBy(h, r.lastNormal, r.commit) by { NoStray(h, i, r.view, r.commit); }
      assert InTime(h, r.lastNormal) by { NoneStrays(h, r.lastNormal); }
    }
    if InTime(h, r.lastNormal) && ChosenBy(h, r.lastNormal, r.commit) {
      LogInView(h, i, r);
      Ordering.PrefixGood(lim, h.views[r.lastNormal].log, |r.log|);
      assert h.views[r.lastNormal].log[..|r.log|] == r.log;
    }
  }

  lemma NoneStrays(h: History, v: nat)
    requires !h.cfg.Strays()
    ensures InTime(h, v)
  {
  }

  /** A replica that knows no more to be committed than its last normal view does holds a prefix of the
      view's log. */
  lemma LogInView(h: History, i: nat, r: Replica)
    requires HistoryOk(h) && Facts(h, i, r) && ChosenBy(h, r.lastNormal, r.commit)
    ensures r.lastNormal in h.views && r.log <= h.views[r.lastNormal].log
  {
    hide HistoryOk;
    FactsHold(h, i, r);
    hide Certain, ChosenBy;
    DecidedOk(h, r.lastNormal, r.commit);
    var view := h.views[r.lastNormal].log;
    assert |r.log| <= |view| && Same(r.log, view, 0, |r.log|);
    SameStart(r.log, view, |r.log|);
    assert r.log == r.log[..|r.log|] == view[..|r.log|];
  }

  lemma NoStray(h: History, i: nat, v: nat, n: int)
    requires Certain(h, i, v, n) && !h.cfg.Strays()
    ensures ChosenBy(h, v, n)
  {
  }

  lemma CompletedView(h: History) returns (u: nat)
    requires HistoryOk(h) && h.completed != []
    ensures u in h.views && h.completed <= h.views[u].log && InTime(h, u)
  {
    HistoryParts(h);
    u :| Chosen(h, u, |h.completed|) && h.completed <= h.views[u].log;
    ChosenInTime(h, u, |h.completed|) by { hide HistoryOk, ViewsOk, ReportsKeep, Chosen; }
  }

  /** No two ops of what the cluster committed execute the same request. */
  lemma CommittedOnce(lim: Limits, cfg: Config, run: seq<System>, k: nat, x: nat, y: nat)
    requires lim.Valid() && cfg.Sound() && OrderlyRun(lim, cfg, run) && k < |run|
    requires var log := run[k].h.completed; x < y && Ordering.Executes(lim, log, x) && Ordering.Executes(lim, log, y)
    requires var log := run[k].h.completed; log[x].client == log[y].client && log[x].session == log[y].session
    ensures run[k].h.completed[x].number < run[k].h.completed[y].number
  {
    hide Ordering.Executes, OrderlyRun;
    assert IsRun(cfg, run) by { RunPart(lim, cfg, run); }
    LogsGood(lim, cfg, run, k, 0);
    Ordering.ExecutesOnce(lim, run[k].h.completed, x, y);
  }

  lemma RunPart(lim: Limits, cfg: Config, run: seq<System>)
    requires OrderlyRun(lim, cfg, run)
    ensures IsRun(cfg, run)
  {
  }
}
