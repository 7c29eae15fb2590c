/** Every step of every replica keeps the invariant of the whole cluster. */
module Running {
  import opened Types
  import opened Quorums
  import opened Protocol
  import opened Cluster
  import opened Invariant
  import opened Growth
  import opened Safety
  import opened Steps
  import opened Entering
  import opened Others
  import opened Handlers
  import opened Reads
  import opened Leading
  import opened Starting
  import opened Changing
  import opened Writing
  import opened Landing
  import opened Crashing
  import opened Restoring

  /** What the other replicas satisfied, they go on satisfying. */
  ghost predicate Spares(h: History, h': History, i: nat) {
    forall j: nat, r: Replica {:trigger RepOk(h', j, r)} :: j != i && RepOk(h, j, r) ==> RepOk(h', j, r)
  }

  /** A step of replica `i` to `r'` that leaves history `h'` keeps everything, and what completed stays. */
  ghost predicate StepOk(h: History, i: nat, r': Replica, h': History) {
    HistoryOk(h') && RepOk(h', i, r') && Spares(h, h', i) && h.completed <= h'.completed
    && h'.cfg == h.cfg
  }

  // ---------------------------------------------------------------------------
  // The kinds of steps

  lemma SameSpares(h: History, i: nat)
    ensures Spares(h, h, i)
  {
  }

  lemma ApartSpares(h: History, h': History, i: nat)
    requires forall j: nat {:trigger Apart(h, h', j)} :: j != i && j < |h.reached| ==> Apart(h, h', j)
    requires h'.completed == h.completed
    ensures Spares(h, h', i)
  {
    hide RepOk, Apart;
    forall j: nat, r: Replica | j != i && RepOk(h, j, r)
      ensures RepOk(h', j, r)
    {
      DiskBehind(h, j, r);
      RepApartQuiet(h, h', j, r);
    }
  }

  lemma ConfirmedBefore(h: History, i: nat, r: Replica)
    requires RepOk(h, i, r)
    ensures Confirmations(r) <= h.confirms
  {
    assert EarlyOk(h, i, r.early);
    hide RepOk;
    forall m | m in Confirmations(r)
      ensures m in h.confirms
    {
      assert MsgOk(h, i, m);
    }
  }

  /** A quiet step leaves the history as it is. */
  lemma QuietActed(h: History, i: nat, r: Replica, r': Replica)
    requires Quiet(h, i, r, r')
    ensures Acted(h, i, r, r') == h
  {
    hide RepOk;
    RepFacts(h, i, r');
    CommitWithin(h, i, r');
    ConfirmedBefore(h, i, r');
    assert h.confirms + Confirmations(r') == h.confirms;
    var v := r'.view;
    if h.cfg.Primary(v) == i && r'.lastNormal == v {
      assert h.views[v].(log := r'.log) == h.views[v];
      assert h.views[v := h.views[v]] == h.views;
    }
  }

  lemma QuietOk(h: History, i: nat, r: Replica, r': Replica)
    requires HistoryOk(h) && Quiet(h, i, r, r')
    ensures StepOk(h, i, r', Acted(h, i, r, r'))
  {
    hide HistoryOk, RepOk;
    QuietActed(h, i, r, r');
    SameSpares(h, i);
  }

  lemma StartedApart(h: History, w: nat, log: Log, o: Origin, j: nat)
    requires w !in h.views && h.cfg.Primary(w) != j && j < |h.reached|
    ensures Apart(h, Started(h, w, log, o), j)
  {
    StartedGrows(h, w, log, o);
  }

  /** So does one that starts a view, but for the view. */
  lemma MovesOk(h: History, i: nat, r: Replica, r': Replica, h': History)
    requires HistoryOk(h) && Moves(h, i, r, r', h')
    ensures StepOk(h, i, r', Acted(h, i, r, r'))
  {
    hide HistoryOk, RepOk;
    if h' == h && Quiet(h, i, r, r') {
      QuietOk(h, i, r, r');
    } else {
      forall j: nat | j != i && j < |h.reached|
        ensures Apart(h, h', j)
      {
        StartedApart(h, r'.view, r'.log, r'.origin, j);
      }
      ApartSpares(h, h', i);
      ConfirmedBefore(h', i, r');
      assert h.confirms + Confirmations(r') == h.confirms;
      assert Acted(h, i, r, r') == h';
    }
  }

  lemma AppendedOk(h: History, v: nat, e: LogEntry)
    requires HistoryOk(h) && v in h.views
    ensures Grows(h, Appended(h, v, e)) && HistoryOk(Appended(h, v, e))
  {
    hide ViewsOk, MsgsOk, CompletedOk, ReportsKeep;
    var h' := Appended(h, v, e);
    ViewsGrow(h, h');
    MsgsGrow(h, h');
    CompletedGrows(h, h');
    AfterReports(h, h');
    assert ReachedOk(h') by {
      assert forall w: nat {:trigger OnRecord(h', w)} :: OnRecord(h', w) ==> OnRecord(h, w);
    }
  }

  lemma AppendedApart(h: History, v: nat, e: LogEntry, j: nat)
    requires v in h.views && h.cfg.Primary(v) != j && j < |h.reached| && Grows(h, Appended(h, v, e))
    ensures Apart(h, Appended(h, v, e), j)
  {
  }

  lemma RequestStep(h: History, i: nat, r: Replica, e: LogEntry)
    requires HistoryOk(h) && RepOk(h, i, r)
    ensures var r' := OnRequest(h.cfg, i, r, e); StepOk(h, i, r', Acted(h, i, r, r'))
  {
    hide HistoryOk, RepOk, Grows, Apart;
    RepFacts(h, i, r);
    var r' := OnRequest(h.cfg, i, r, e);
    if h.cfg.Primary(r.view) != i || r.status != Normal {
      QuietOk(h, i, r, r');
    } else {
      RequestKeeps(h, i, r, e);
      var h' := Appended(h, r.view, e);
      AppendedOk(h, r.view, e);
      forall j: nat | j != i && j < |h.reached|
        ensures Apart(h, h', j)
      {
        AppendedApart(h, r.view, e, j);
      }
      ApartSpares(h, h', i);
      CommitWithin(h', i, r');
      ConfirmedBefore(h', i, r');
      assert h.confirms + Confirmations(r') == h.confirms;
      assert Acted(h, i, r, r') == h';
    }
  }

  lemma ConfirmedOk(h: History, h': History, v: nat, round: nat, i: nat)
    requires HistoryOk(h) && ConfirmView(v, round) in h.msgs && h' == h.(confirms := h.confirms + {ConfirmViewOk(v, round, i)})
    ensures HistoryOk(h')
  {
    hide ViewsOk, MsgsOk, CompletedOk;
    ViewsGrow(h, h');
    MsgsGrow(h, h');
    CompletedGrows(h, h');
    assert ReachedOk(h') by {
      assert forall w: nat {:trigger OnRecord(h', w)} :: OnRecord(h', w) ==> OnRecord(h, w);
    }
  }

  lemma ConfirmStep(h: History, i: nat, r: Replica, v: nat, round: nat)
    requires HistoryOk(h) && RepOk(h, i, r) && ConfirmView(v, round) in h.msgs
    ensures var r' := OnConfirmView(h.cfg, i, r, v, round); StepOk(h, i, r', Acted(h, i, r, r'))
  {
    hide HistoryOk, RepOk;
    RepFacts(h, i, r);
    var r' := OnConfirmView(h.cfg, i, r, v, round);
    if v != r.view || h.cfg.Primary(v) == i {
      QuietOk(h, i, r, r');
    } else {
      var m := ConfirmViewOk(v, round, i);
      var h' := h.(confirms := h.confirms + {m});
      DiskBehind(h, i, r);
      ConfirmViewKeeps(h, h', i, r, v, round);
      ConfirmedOk(h, h', v, round, i);
      assert forall j: nat {:trigger Apart(h, h', j)} :: j != i && j < |h.reached| ==> Apart(h, h', j);
      ApartSpares(h, h', i);
      QuietActed(h', i, r, r');
      assert m in Confirmations(r');
      assert h.confirms + Confirmations(r') == h'.confirms + Confirmations(r');
      assert Acted(h, i, r, r') == Acted(h', i, r, r');
    }
  }

  lemma CommitSpares(h: History, h': History, v: nat, i: nat)
    requires HistoryOk(h) && h.cfg.Primary(v) == i
    requires h' == h.(completed := h'.completed) && h.completed <= h'.completed && Chosen(h, v, |h'.completed|)
    ensures Spares(h, h', i)
  {
    hide HistoryOk, RepOk, Chosen;
    forall j: nat, r: Replica | j != i && RepOk(h, j, r)
      ensures RepOk(h', j, r)
    {
      CommitApart(h, h', v, j, r);
    }
  }

  lemma PrepareOkStep(h: History, i: nat, r: Replica, v: nat, op: nat, from: nat)
    requires HistoryOk(h) && RepOk(h, i, r) && PrepareOk(v, op, from) in h.msgs
    ensures var r' := OnPrepareOk(h.cfg, i, r, v, op, from); StepOk(h, i, r', Acted(h, i, r, r'))
  {
    hide HistoryOk, RepOk, RegisterAck, Chosen;
    RepFacts(h, i, r);
    var r' := OnPrepareOk(h.cfg, i, r, v, op, from);
    if v != r.view || h.cfg.Primary(r.view) != i || r.status != Normal {
      QuietOk(h, i, r, r');
    } else {
      assert Acked(h, r.view, Min(op, |r.log|), from);
      var h' := RegisterAckKeeps(h, i, r, from, op);
      SameSpares(h, i);
      if h' != h {
        CommitSpares(h, h', r.view, i);
      }
      ConfirmedBefore(h', i, r');
      assert h.confirms + Confirmations(r') == h.confirms;
      assert h.views[r.view].(log := r'.log) == h.views[r.view];
      assert h.views[r.view := h.views[r.view]] == h.views;
      assert Acted(h, i, r, r') == h';
    }
  }

  // ---------------------------------------------------------------------------
  // Events

  lemma SentPart(h: History, m: Message)
    requires HistoryOk(h) && m in h.msgs
    ensures SentOk(h, m)
  {
    assert MsgsOk(h);
  }

  lemma MessageStep(h: History, i: nat, r: Replica, m: Message)
    requires HistoryOk(h) && RepOk(h, i, r) && m in h.msgs && SentTo(h.cfg, i, m)
    ensures var r' := OnMessage(h.cfg, i, r, m); StepOk(h, i, r', Acted(h, i, r, r'))
  {
    hide HistoryOk, RepOk, SentOk, Quiet, Moves, StepOk, Acted;
    hide OnPrepare, OnPrepareOk, OnCommit, OnGetState, OnNewState, OnStartViewChange, OnDoViewChange, OnStartView,
      OnConfirmView, OnConfirmViewOk;
    ValidPart(h);
    SentPart(h, m);
    match m
    case Prepare(v, op, e, c) => PrepareKeeps(h, i, r, v, op, e, c); QuietOk(h, i, r, OnMessage(h.cfg, i, r, m));
    case PrepareOk(v, op, j) => PrepareOkStep(h, i, r, v, op, j);
    case Commit(v, c) => CommitKeeps(h, i, r, v, c); QuietOk(h, i, r, OnMessage(h.cfg, i, r, m));
    case GetState(j, to, v, op) => GetStateKeeps(h, i, r, j, to, v, op); QuietOk(h, i, r, OnMessage(h.cfg, i, r, m));
    case NewState(j, _, v, s, es, c) => NewStateKeeps(h, i, r, j, v, s, es, c); QuietOk(h, i, r, OnMessage(h.cfg, i, r, m));
    case StartView(v, log, c) => StartViewKeeps(h, i, r, v, log, c); QuietOk(h, i, r, OnMessage(h.cfg, i, r, m));
    case ConfirmView(v, round) => ConfirmStep(h, i, r, v, round);
    case ConfirmViewOk(v, round, j) => ConfirmViewOkKeeps(h, i, r, v, round, j); QuietOk(h, i, r, OnMessage(h.cfg, i, r, m));
    case StartViewChange(v, j) =>
      var h' := StartViewChangeKeeps(h, i, r, v, j);
      MovesOk(h, i, r, OnMessage(h.cfg, i, r, m), h');
    case DoViewChange(v, j, d) =>
      var h' := DoViewChangeKeeps(h, i, r, v, j, d);
      MovesOk(h, i, r, OnMessage(h.cfg, i, r, m), h');
  }

  lemma ActStep(h: History, i: nat, r: Replica, input: Input)
    requires HistoryOk(h) && RepOk(h, i, r) && (input.Receive? ==> input.m in h.msgs && SentTo(h.cfg, i, input.m))
    ensures var r' := OnInput(h.cfg, i, r, input, h); StepOk(h, i, r', Acted(h, i, r, r'))
  {
    hide HistoryOk, RepOk, Quiet, Moves, StepOk, Acted;
    hide OnRequest, OnQuery, OnMessage, OnTimeout, OnIdlePrimary, OnIdleTransfer, OnIdleViewChange;
    var r' := OnInput(h.cfg, i, r, input, h);
    match input
    case ClientEntry(e) => RequestStep(h, i, r, e);
    case Query(id) => QueryKeeps(h, i, r, id); QuietOk(h, i, r, r');
    case Receive(m) => MessageStep(h, i, r, m);
    case Timeout => TimeoutKeeps(h, i, r); QuietOk(h, i, r, r');
    case IdlePrimary(due) => IdlePrimaryKeeps(h, i, r, due); QuietOk(h, i, r, r');
    case IdleTransfer => IdleTransferKeeps(h, i, r); QuietOk(h, i, r, r');
    case IdleViewChange =>
      var h' := IdleViewChangeKeeps(h, i, r);
      MovesOk(h, i, r, r', h');
  }

  lemma DrainStep(h: History, i: nat, r: Replica, sent: set<Message>)
    requires HistoryOk(h) && RepOk(h, i, r) && MayDrain(h, r, sent)
    ensures StepOk(h, i, Emptied(r, sent), Drained(h, sent))
  {
    hide HistoryOk, RepOk, Grows, Apart;
    DrainedOk(h, i, r, sent);
    DrainKeeps(h, i, r, sent);
    forall j: nat | j != i && j < |h.reached|
      ensures Apart(h, Drained(h, sent), j)
    {
      DrainApart(h, i, r, sent, j);
    }
    ApartSpares(h, Drained(h, sent), i);
  }

  lemma LandStep(h: History, i: nat, r: Replica, skip: bool)
    requires HistoryOk(h) && RepOk(h, i, r) && r.out.Some? && MayLand(r, LandedDisk(r, skip))
    ensures i < |h.reached|
    ensures var r' := Persisted(h.cfg, i, r, skip);
            StepOk(h, i, r', LandedHistory(h, i, r, r'.disk).(completed := Complete(h.completed, r')))
  {
    hide HistoryOk, RepOk, Grows, Apart, Chosen, Persisted;
    DiskBehind(h, i, r);
    var h1 := LandKeeps(h, i, r, skip);
    var r' := Persisted(h.cfg, i, r, skip);
    var h' := h1.(completed := Complete(h.completed, r'));
    forall j: nat | j != i && j < |h.reached|
      ensures Apart(h, h1, j)
    {
      LandApart(h, i, r, LandedDisk(r, skip), j);
    }
    ApartSpares(h, h1, i);
    SameSpares(h1, i);
    if h' != h1 {
      CommitSpares(h1, h', r.view, i);
    }
    SparesTwice(h, h1, h', i);
  }

  lemma SparesTwice(h: History, h1: History, h': History, i: nat)
    requires Spares(h, h1, i) && Spares(h1, h', i)
    ensures Spares(h, h', i)
  {
    hide RepOk;
    forall j: nat, r: Replica | j != i && RepOk(h, j, r)
      ensures RepOk(h', j, r)
    {
      assert RepOk(h1, j, r);
    }
  }

  lemma CrashStep(h: History, i: nat, r: Replica, disk: Image)
    requires HistoryOk(h) && RepOk(h, i, r) && MayLeave(r, disk) && h.cfg.gated && h.cfg.crashes
    ensures i < |h.reached|
    ensures var r' := Restart(h.cfg, i, disk, r.flushed);
            StepOk(h, i, r', Crashed(h, i, disk)) && Complete(h.completed, r') == h.completed
  {
    hide HistoryOk, RepOk;
    CrashKeeps(h, i, r, disk);
    forall j: nat, rj: Replica | j != i && RepOk(h, j, rj)
      ensures RepOk(Crashed(h, i, disk), j, rj)
    {
      DiskBehind(h, j, rj);
      CrashApart(h, i, r, disk, j, rj);
    }
  }

  /** A step of one replica, as a step of the cluster. */
  lemma OneStep(s: System, i: nat, r': Replica, h': History)
    requires Inv(s) && i < |s.reps| && StepOk(s.h, i, r', h')
    ensures Inv(System(s.reps[i := r'], h'))
  {
    hide HistoryOk, RepOk;
  }

  lemma SoundPart(h: History)
    requires HistoryOk(h)
    ensures h.cfg.Sound()
  {
  }

  lemma RepPart(s: System, i: nat)
    requires Inv(s) && i < |s.reps|
    ensures HistoryOk(s.h) && RepOk(s.h, i, s.reps[i])
  {
  }

  /** The event's replica and the history after it. */
  lemma EventOk(s: System, e: Event) returns (r': Replica, h': History)
    requires Inv(s) && Enabled(s, e)
    ensures Step(s, e) == System(s.reps[e.i := r'], h') && StepOk(s.h, e.i, r', h')
  {
    hide Inv, HistoryOk, RepOk, Spares, OnInput, Restored, Persisted, Restart, Acted, Complete, OwnAck, Gate;
    RepPart(s, e.i);
    var h, i, r := s.h, e.i, s.reps[e.i];
    SameSpares(h, i);
    match e
    case Act(_, input) =>
      ActStep(h, i, r, input);
      r' := OnInput(h.cfg, i, r, input, h);
      h' := Acted(h, i, r, r');
    case Drain(_, sent) =>
      DrainStep(h, i, r, sent);
      r', h' := Emptied(r, sent), Drained(h, sent);
    case Take(_) =>
      TakeKeeps(h, i, r);
      r', h' := TakeWrite(r), h;
    case Land(_, skip) =>
      LandStep(h, i, r, skip);
      r' := Persisted(h.cfg, i, r, skip);
      h' := LandedHistory(h, i, r, r'.disk).(completed := Complete(h.completed, r'));
    case Flush(_) =>
      FlushKeeps(h, i, r);
      r', h' := r.(flushed := r.sm), h;
    case Restore(_, m, k) =>
      RestoreKeeps(h, i, r, m, k);
      r' := Restored(h.cfg, i, r, m, k);
      QuietOk(h, i, r, r');
      h' := Acted(h, i, r, r');
    case Crash(_, landed) =>
      var disk := if landed then r.out.value else r.disk;
      SoundPart(h);
      CrashStep(h, i, r, disk);
      r', h' := Restart(h.cfg, i, disk, r.flushed), Crashed(h, i, disk);
  }

  /** The invariant is kept by every step, and what completed stays. */
  lemma StepKeeps(s: System, e: Event)
    requires Inv(s) && Enabled(s, e)
    ensures Inv(Step(s, e))
    ensures s.h.completed <= Step(s, e).h.completed && Step(s, e).h.cfg == s.h.cfg
  {
    hide Inv, HistoryOk, RepOk;
    var r', h' := EventOk(s, e);
    OneStep(s, e.i, r', h');
  }

  // ---------------------------------------------------------------------------
  // Runs

  lemma InitialHistory(cfg: Config)
    requires cfg.Sound()
    ensures HistoryOk(Initial(cfg).h)
  {
  }

  lemma InitialRep(cfg: Config, i: nat)
    requires cfg.Sound() && i < cfg.n
    ensures RepOk(Initial(cfg).h, i, New(cfg))
  {
    var h, r := Initial(cfg).h, New(cfg);
    assert ImageOk(h, i, EmptyImage);
    hide ImageOk;
    assert cfg.Primary(0) == 0;
    assert Latest(r.out, r.disk) == EmptyImage && Snapshot(r) == EmptyImage;
    assert RepCore(h, i, r);
    assert LeaderOk(h, i, Snapshot(r), r.q, r.early);
  }

  lemma InitialOk(cfg: Config)
    requires cfg.Sound()
    ensures Inv(Initial(cfg))
  {
    hide HistoryOk, RepOk;
    InitialHistory(cfg);
    forall i | 0 <= i < cfg.n
      ensures RepOk(Initial(cfg).h, i, Initial(cfg).reps[i])
    {
      InitialRep(cfg, i);
    }
  }

  /** Every state of every run satisfies the invariant, and what completed only grows. */
  lemma {:induction false} RunOk(cfg: Config, run: seq<System>, a: nat, b: nat)
    requires cfg.Sound() && IsRun(cfg, run) && a <= b < |run|
    ensures Inv(run[b]) && run[b].h.cfg == cfg && run[a].h.completed <= run[b].h.completed
    decreases b
  {
    hide Inv, Initial, Step;
    if b == 0 {
      InitialOk(cfg);
      assert run[0].h.cfg == cfg by { InitialConfig(cfg); }
    } else {
      RunOk(cfg, run, Min(a, b - 1), b - 1);
      assert IsStep(run[b - 1], run[b - 1 + 1]);
      var e :| Enabled(run[b - 1], e) && run[b] == Step(run[b - 1], e);
      StepKeeps(run[b - 1], e);
    }
  }

  lemma InitialConfig(cfg: Config)
    ensures Initial(cfg).h.cfg == cfg
  {
  }
}
