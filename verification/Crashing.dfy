/** A crash: the write that was out lands whole or not at all, views the replica had started in
    memory only are forgotten, and it comes back from its disk. */
module Crashing {
  import opened Types
  import opened Quorums
  import opened Protocol
  import opened Cluster
  import opened Invariant
  import opened Growth
  import opened Safety
  import opened Steps
  import opened Entering
  import opened Others
  import opened Reads
  import opened Leading

  // ---------------------------------------------------------------------------
  // The disk is as the crash left it

  /** The disk a crash leaves: the write that was out landed, or it did not. */
  ghost predicate MayLeave(r: Replica, disk: Image) {
    disk == r.disk || r.out == Some(disk)
  }

  function AfterCrash(h: History, i: nat, disk: Image): History
    requires i < |h.reached|
  {
    h.(views := Establish(h.cfg, i, disk, h.views), reached := Raise(h.reached, i, disk.view))
  }

  /** What the disk left behind satisfies, and the flushed state. */
  ghost predicate DiskLeft(h: History, i: nat, disk: Image, flushed: Log) {
    && ImageOk(h, i, disk)
    && KeepsAcks(h.msgs, i, disk)
    && ReportsUpTo(h.msgs, i, disk.view)
    && ReportsKeepAcks(h.msgs, i)
    && OwnReportsKeep(h, h.msgs, i)
    && flushed <= h.completed
    && Certain(h, i, disk.view, |flushed|)
  }

  lemma DiskLeftOk(h: History, i: nat, r: Replica, disk: Image)
    requires RepOk(h, i, r) && MayLeave(r, disk) && h.cfg.gated && h.cfg.crashes
    ensures i < |h.reached| && i < h.cfg.n && h.reached[i] <= disk.view && disk.lastNormal <= disk.view
    ensures r.disk.lastNormal <= disk.lastNormal
    ensures DiskLeft(h, i, disk, r.flushed) && LeadsOk(h, i, Snapshot(r), r.disk)
  {
    StateCompleted(h, i, r);
    hide CatchingUpOk, BoxesOk, RecordedOk, AckedOk, EarlyOk, AnswersOk, LeaderOk, WritesOk, LeadsOk, Certain, ExecutedOk;
    CertainLess(h, i, r.disk.view, |r.sm|, disk.view, |r.flushed|);
    var said := Said(h, r);
    forall w: nat, d | DoViewChange(w, i, d) in h.msgs
      ensures ReportKeeps(h.msgs, i, w, d)
    {
      assert ReportKeeps(said, i, w, d);
    }
    forall w | w in h.views && h.cfg.Primary(w) == i && i in h.views[w].origin.reports
      ensures ReportKeeps(h.msgs, i, w, h.views[w].origin.reports[i])
    {
      assert ReportKeeps(said, i, w, h.views[w].origin.reports[i]);
    }
  }

  lemma AfterGrows(h: History, i: nat, disk: Image)
    requires i < |h.reached| && h.reached[i] <= disk.view
    ensures Grows(h, AfterCrash(h, i, disk)) && AfterCrash(h, i, disk).views.Keys == h.views.Keys
  {
  }

  lemma AfterReports(h: History, h': History)
    requires ReportsKeep(h) && h' == h.(views := h'.views, reached := h'.reached) && h'.views.Keys == h.views.Keys
    requires forall v {:trigger h'.views[v]} :: v in h'.views ==> h'.views[v].origin == h.views[v].origin
    ensures ReportsKeep(h')
  {
    hide ReportKeeps;
  }

  lemma AfterOk(h: History, i: nat, disk: Image)
    requires HistoryOk(h) && i < |h.reached| && h.reached[i] <= disk.view && disk.lastNormal <= disk.view
    ensures HistoryOk(AfterCrash(h, i, disk))
  {
    hide ReportsKeep, ViewsOk, CompletedOk, MsgsOk;
    var h' := AfterCrash(h, i, disk);
    AfterGrows(h, i, disk);
    ViewsGrow(h, h');
    MsgsGrow(h, h');
    CompletedGrows(h, h');
    AfterReports(h, h');
    forall w: nat | OnRecord(h', w) && h'.cfg.Primary(w) < |h'.reached|
      ensures w <= h'.reached[h'.cfg.Primary(w)]
    {
      if h.cfg.Primary(w) != i || h.views[w].est {
        assert OnRecord(h, w);
      }
    }
  }

  lemma AfterApart(h: History, i: nat, disk: Image, j: nat)
    requires i < |h.reached| && h.reached[i] <= disk.view && j != i && j < |h.reached|
    ensures Apart(h, AfterCrash(h, i, disk), j)
  {
    AfterGrows(h, i, disk);
  }

  lemma AfterLeft(h: History, i: nat, disk: Image, flushed: Log)
    requires i < |h.reached| && Grows(h, AfterCrash(h, i, disk)) && DiskLeft(h, i, disk, flushed)
    ensures DiskLeft(AfterCrash(h, i, disk), i, disk, flushed)
  {
    hide ImageOk, ReportKeeps, KeepsAcks, ReportsUpTo, ReportsKeepAcks;
    var h' := AfterCrash(h, i, disk);
    ImageGrows(h, h', i, disk);
    CertainGrows(h, h', i, disk.view, |flushed|);
  }

  // ---------------------------------------------------------------------------
  // Views are forgotten

  /** The history less the views of replica `i` past view `last`, none of which is on record. */
  ghost predicate Trims(h: History, h': History, i: nat, last: nat) {
    && h' == h.(views := h'.views)
    && (forall v {:trigger h'.views[v]} :: v in h'.views ==>
        v in h.views && h'.views[v] == h.views[v] && (h.cfg.Primary(v) == i ==> v <= last))
    && (forall v {:trigger v in h'.views} {:trigger h.views[v]} :: v in h.views && (h.cfg.Primary(v) != i || v <= last) ==> v in h'.views)
    && (forall v {:trigger OnRecord(h, v)} :: OnRecord(h, v) ==> OnRecord(h', v))
  }

  lemma ChosenByTrims(h: History, h': History, i: nat, last: nat, v: nat, n: int)
    requires Trims(h, h', i, last) && h.cfg.Valid() && MsgsOk(h) && ChosenBy(h, v, n)
    ensures ChosenBy(h', v, n)
  {
    hide MsgsOk;
    if n > 0 {
      var u: nat :| u <= v && Chosen(h, u, n);
      ChosenTrims(h, h', i, last, u, n);
    }
  }

  lemma ChosenTrims(h: History, h': History, i: nat, last: nat, v: nat, n: nat)
    requires Trims(h, h', i, last) && h.cfg.Valid() && MsgsOk(h) && Chosen(h, v, n)
    ensures Chosen(h', v, n) && h'.views[v] == h.views[v]
  {
    ChosenOnRecord(h, v, n);
    hide MsgsOk;
    assert OnRecord(h', v);
    var q :| AckQuorum(h, v, n, q);
    forall j | j in q
      ensures Acked(h', v, n, j)
    {
      assert Acked(h, v, n, j);
    }
    assert AckQuorum(h', v, n, q);
  }

  lemma CertainTrims(h: History, h': History, i: nat, last: nat, j: nat, v: nat, n: int)
    requires Trims(h, h', i, last) && h.cfg.Valid() && MsgsOk(h) && Certain(h, j, v, n)
    ensures Certain(h', j, v, n)
  {
    hide MsgsOk;
    if n > 0 {
      var u: nat :| ChosenFor(h, j, v, u, n);
      ChosenTrims(h, h', i, last, u, n);
      assert ChosenFor(h', j, v, u, n);
    }
  }

  lemma SettledTrims(h: History, h': History, i: nat, last: nat, log: Log, c: nat, born: nat)
    requires Trims(h, h', i, last) && h.cfg.Valid() && MsgsOk(h) && Settled(h, log, c, born)
    ensures Settled(h', log, c, born)
  {
    hide MsgsOk;
    if c > 0 {
      var u: nat :| Chosen(h, u, c) && h.views[u].born < born && Same(log, h.views[u].log, 0, c);
      ChosenTrims(h, h', i, last, u, c);
      assert Chosen(h', u, c);
    }
  }

  lemma EarlierTrims(h: History, h': History, i: nat, last: nat, v: nat, c: nat)
    requires Trims(h, h', i, last) && h.cfg.Valid() && MsgsOk(h) && Earlier(h, v, c)
    ensures Earlier(h', v, c)
  {
    hide MsgsOk, ChosenBy;
    if !h.cfg.Strays() && v > 0 {
      ChosenByTrims(h, h', i, last, v - 1, c);
    }
  }

  /** What replica `j` knows of view `v` is kept. */
  ghost predicate Kept(h: History, i: nat, last: nat, j: nat, v: nat) {
    j != i || v <= last || OnRecord(h, v)
  }

  lemma KnownTrims(h: History, h': History, i: nat, last: nat, j: nat, v: nat)
    requires Trims(h, h', i, last) && Known(h, j, v) && Kept(h, i, last, j, v)
    ensures Known(h', j, v) && h'.views[v] == h.views[v]
  {
    if h.views[v].est {
      assert OnRecord(h, v);
    }
  }

  lemma ImageTrims(h: History, h': History, i: nat, last: nat, j: nat, a: Image)
    requires Trims(h, h', i, last) && h.cfg.Valid() && MsgsOk(h) && ImageOk(h, j, a) && Kept(h, i, last, j, a.lastNormal)
    ensures ImageOk(h', j, a)
  {
    hide MsgsOk, Certain;
    KnownTrims(h, h', i, last, j, a.lastNormal);
    CertainTrims(h, h', i, last, j, a.view, a.commit);
  }

  /** The view a message speaks of. */
  function Speaks(m: Message): nat { if m.DoViewChange? then m.report.lastNormal else m.view }

  lemma MsgTrims(h: History, h': History, i: nat, last: nat, j: nat, m: Message)
    requires Trims(h, h', i, last) && h.cfg.Valid() && MsgsOk(h) && MsgOk(h, j, m) && Kept(h, i, last, j, Speaks(m))
    ensures MsgOk(h', j, m)
  {
    hide MsgsOk, Certain, ImageOk;
    match m
    case Prepare(v, op, e, c) => KnownTrims(h, h', i, last, j, v); CertainTrims(h, h', i, last, h.cfg.Primary(v), v, c);
    case Commit(v, c) => KnownTrims(h, h', i, last, j, v); CertainTrims(h, h', i, last, h.cfg.Primary(v), v, c);
    case NewState(_, _, v, _, _, c) => KnownTrims(h, h', i, last, j, v); CertainTrims(h, h', i, last, h.cfg.Primary(v), v, c);
    case StartView(v, log, c) => KnownTrims(h, h', i, last, j, v); CertainTrims(h, h', i, last, h.cfg.Primary(v), v, c);
    case DoViewChange(v, _, d) => ImageTrims(h, h', i, last, j, Image(v, d.lastNormal, d.commit, d.log));
    case ConfirmView(v, _) => KnownTrims(h, h', i, last, j, v);
    case PrepareOk(v, _, _) => assert OnRecord(h, v);
    case GetState(_, _, v, _) => assert OnRecord(h, v);
    case _ =>
  }

  lemma MsgsTrim(h: History, h': History, i: nat, last: nat)
    requires Trims(h, h', i, last) && h.cfg.Valid() && MsgsOk(h)
    ensures MsgsOk(h')
  {
    hide MsgOk, MsgsOk, Trims;
    forall m | m in h'.msgs
      ensures SentOk(h', m)
    {
      SentTrims(h, h', i, last, m);
    }
    assert MsgsOk(h') by { AllSent(h'); }
  }

  lemma AllSent(h: History)
    requires forall m {:trigger SentOk(h, m)} :: m in h.msgs ==> SentOk(h, m)
    ensures MsgsOk(h)
  {
  }

  lemma SentTrims(h: History, h': History, i: nat, last: nat, m: Message)
    requires Trims(h, h', i, last) && h.cfg.Valid() && MsgsOk(h) && m in h'.msgs
    ensures SentOk(h', m)
  {
    assert SentOk(h, m);
    hide MsgsOk, MsgOk;
    if m.StartViewChange? || m.ConfirmViewOk? {
      assert MsgOk(h', Sender(m), m) by { FreeTrims(h, h', i, last, Sender(m), m); }
    } else {
      MsgTrims(h, h', i, last, Sender(m), m);
    }
  }

  lemma FreeTrims(h: History, h': History, i: nat, last: nat, j: nat, m: Message)
    requires Trims(h, h', i, last) && MsgOk(h, j, m) && (m.StartViewChange? || m.ConfirmViewOk?)
    ensures MsgOk(h', j, m)
  {
  }

  lemma ReportTrims(h: History, h': History, i: nat, last: nat, j: nat, v: nat, d: Report)
    requires Trims(h, h', i, last) && h.cfg.Valid() && MsgsOk(h) && ReportOk(h, j, v, d)
    requires j != i || d.lastNormal <= last || DoViewChange(v, j, d) in h.msgs
    ensures ReportOk(h', j, v, d) && d.lastNormal in h.views && d.lastNormal in h'.views
    ensures h'.views[d.lastNormal] == h.views[d.lastNormal]
  {
    assert DoViewChange(v, j, d) in h.msgs ==> SentOk(h, DoViewChange(v, j, d));
    ImageKnown(h, j, Image(v, d.lastNormal, d.commit, d.log));
    hide MsgsOk, MsgOk, ImageOk;
    ImageTrims(h, h', i, last, j, Image(v, d.lastNormal, d.commit, d.log));
    KnownTrims(h, h', i, last, j, d.lastNormal);
  }

  lemma ImageKnown(h: History, i: nat, a: Image)
    requires ImageOk(h, i, a)
    ensures Known(h, i, a.lastNormal)
  {
  }

  lemma ReportedTrims(h: History, h': History, i: nat, last: nat, v: nat, born: nat, j: nat, d: Report, best: Report)
    requires Trims(h, h', i, last) && h.cfg.Valid() && MsgsOk(h) && ReportedBy(h, v, born, j, d, best)
    requires h.cfg.Primary(v) == i ==> v <= last
    ensures ReportedBy(h', v, born, j, d, best)
  {
    hide MsgsOk, ImageOk, Settled, Earlier;
    ReportTrims(h, h', i, last, j, v, d);
    SettledTrims(h, h', i, last, d.log, d.commit, born);
    EarlierTrims(h, h', i, last, v, d.commit);
  }

  lemma OriginTrims(h: History, h': History, i: nat, last: nat, v: nat, born: nat, init: Log, o: Origin)
    requires Trims(h, h', i, last) && h.cfg.Valid() && MsgsOk(h) && OriginOk(h, v, born, init, o)
    requires h.cfg.Primary(v) == i ==> v <= last
    ensures OriginOk(h', v, born, init, o)
  {
    hide MsgsOk, ReportedBy, Settled, Earlier;
    forall j | j in o.reports
      ensures ReportedBy(h', v, born, j, o.reports[j], o.reports[o.best])
    {
      ReportedTrims(h, h', i, last, v, born, j, o.reports[j], o.reports[o.best]);
    }
    SettledTrims(h, h', i, last, init, o.kept, born);
    EarlierTrims(h, h', i, last, v, o.kept);
  }

  lemma ViewTrims(h: History, h': History, i: nat, last: nat, v: nat)
    requires Trims(h, h', i, last) && h.cfg.Valid() && MsgsOk(h) && v in h'.views && v in h.views && ViewOk(h, v)
    ensures ViewOk(h', v)
  {
    hide MsgsOk, OriginOk, Trims;
    SameView(h, h', i, last, v);
    if v > 0 {
      OriginTrims(h, h', i, last, v, h.views[v].born, h.views[v].init, h.views[v].origin);
    }
  }

  lemma SameView(h: History, h': History, i: nat, last: nat, v: nat)
    requires Trims(h, h', i, last) && v in h'.views
    ensures v in h.views && h'.views[v] == h.views[v] && (h.cfg.Primary(v) == i ==> v <= last)
    ensures h'.cfg == h.cfg && h'.msgs == h.msgs && h'.starts == h.starts
  {
  }

  lemma ViewsTrim(h: History, h': History, i: nat, last: nat)
    requires Trims(h, h', i, last) && h.cfg.Valid() && MsgsOk(h) && ViewsOk(h)
    ensures ViewsOk(h')
  {
    hide MsgsOk, ViewOk;
    forall v | v in h'.views
      ensures ViewOk(h', v)
    {
      assert ViewOk(h, v);
      ViewTrims(h, h', i, last, v);
    }
    assert 0 in h'.views by {
      assert h.views[0] == h.views[0];
    }
  }

  lemma CompletedTrims(h: History, h': History, i: nat, last: nat)
    requires Trims(h, h', i, last) && h.cfg.Valid() && MsgsOk(h) && CompletedOk(h)
    ensures CompletedOk(h')
  {
    hide MsgsOk;
    if h.completed != [] {
      var u: nat :| Chosen(h, u, |h.completed|) && h.completed <= h.views[u].log;
      ChosenTrims(h, h', i, last, u, |h.completed|);
    }
  }

  lemma ReportsTrim(h: History, h': History, i: nat, last: nat)
    requires Trims(h, h', i, last) && ReportsKeep(h)
    ensures ReportsKeep(h')
  {
    hide ReportKeeps;
  }

  lemma ReachedTrims(h: History, h': History, i: nat, last: nat)
    requires Trims(h, h', i, last) && ReachedOk(h)
    ensures ReachedOk(h')
  {
    forall w: nat | OnRecord(h', w) && h'.cfg.Primary(w) < |h'.reached|
      ensures w <= h'.reached[h'.cfg.Primary(w)]
    {
      assert OnRecord(h, w);
    }
  }

  lemma HistoryTrims(h: History, h': History, i: nat, last: nat)
    requires Trims(h, h', i, last) && HistoryOk(h)
    ensures HistoryOk(h')
  {
    hide ViewsOk, MsgsOk, ReportsKeep, CompletedOk, ReachedOk;
    ViewsTrim(h, h', i, last);
    MsgsTrim(h, h', i, last);
    ReportsTrim(h, h', i, last);
    CompletedTrims(h, h', i, last);
    ReachedTrims(h, h', i, last);
  }

  // ---------------------------------------------------------------------------
  // The other replicas

  lemma MailTrims(h: History, h': History, i: nat, last: nat, j: nat, r: Replica)
    requires Trims(h, h', i, last) && h.cfg.Valid() && MsgsOk(h) && RepCore(h, j, r) && j != i
    ensures EarlyOk(h', j, r.early) && BoxesOk(h', j, r.lastNormal, r.log, r.out, r.disk, r.waiting, r.outbox)
  {
    hide ImagesOk, StatusOk, CatchingUpOk, LeadsOk, AcksOk, ReportsOk, RecordedOk, AckedOk, WritesOk, ExecutedOk, ExecutionOk,
      AnswersOk, MsgsOk, MsgOk;
    forall m | m in r.early || m in r.waiting || m in r.outbox
      ensures MsgOk(h', j, m)
    {
      assert MsgOk(h, j, m);
      MsgTrims(h, h', i, last, j, m);
    }
  }

  lemma RecordedTrims(h: History, h': History, i: nat, last: nat, j: nat, status: Status, view: nat, said: set<Message>, dvcFrom: map<nat, Report>)
    requires Trims(h, h', i, last) && h.cfg.Valid() && MsgsOk(h) && RecordedOk(h, j, status, view, said, dvcFrom) && j != i
    ensures RecordedOk(h', j, status, view, said, dvcFrom)
  {
    hide MsgsOk, ReportOk, ReportKeeps;
    forall k | k in dvcFrom
      ensures ReportOk(h', k, view, dvcFrom[k])
    {
      ReportTrims(h, h', i, last, k, view, dvcFrom[k]);
    }
  }

  lemma ExecutionTrims(h: History, h': History, i: nat, last: nat, j: nat, mem: Image, changed: Option<nat>, durable: nat, latest: Image, disk: Image, sm: nat)
    requires Trims(h, h', i, last) && h.cfg.Valid() && MsgsOk(h) && ExecutionOk(h, j, mem, changed, durable, latest, disk, sm)
    ensures ExecutionOk(h', j, mem, changed, durable, latest, disk, sm)
  {
    hide MsgsOk, Certain;
    if h.cfg.crashes {
      CertainTrims(h, h', i, last, j, disk.view, sm);
      if disk.lastNormal == mem.lastNormal {
        CertainTrims(h, h', i, last, j, disk.view, mem.commit);
      }
      if disk.lastNormal < mem.lastNormal {
        CertainTrims(h, h', i, last, j, disk.view, DurableUpTo(durable, changed));
      }
      if latest.lastNormal == mem.lastNormal {
        CertainTrims(h, h', i, last, j, latest.view, mem.commit);
      }
      if latest.lastNormal < mem.lastNormal {
        CertainTrims(h, h', i, last, j, latest.view, changed.value - 1);
      }
    }
  }

  lemma ImagesTrim(h: History, h': History, i: nat, last: nat, j: nat, mem: Image, out: Option<Image>, disk: Image)
    requires Trims(h, h', i, last) && h.cfg.Valid() && MsgsOk(h) && ImagesOk(h, j, mem, out, disk) && j != i
    ensures ImagesOk(h', j, mem, out, disk)
  {
    hide MsgsOk, ImageOk, Trims;
    ImageTrims(h, h', i, last, j, mem);
    ImageTrims(h, h', i, last, j, Latest(out, disk));
    ImageTrims(h, h', i, last, j, disk);
  }

  lemma StatusTrims(h: History, h': History, i: nat, last: nat, j: nat, r: Replica)
    requires Trims(h, h', i, last) && RepCore(h, j, r) && j != i
    ensures StatusOk(h', j, r.status, Snapshot(r), r.disk) && CatchingUpOk(h', r.status, r.view, r.catchingUp)
    ensures LeadsOk(h', j, Snapshot(r), r.disk) && AckedOk(h', j, Snapshot(r), r.acked)
    ensures ReportsOk(h', j, r.view, r.out, r.disk, r.waiting, r.outbox)
  {
    hide ImagesOk, AcksOk, EarlyOk, BoxesOk, RecordedOk, WritesOk, ExecutedOk, ExecutionOk, AnswersOk, ReportKeeps, ReportsUpTo, ReportsKeepAcks;
    forall k | 0 <= k < |r.acked| && Acked(h, r.view, r.acked[k], k)
      ensures Acked(h', r.view, r.acked[k], k)
    {
    }
  }

  lemma LeaderTrims(h: History, h': History, i: nat, last: nat, j: nat, mem: Image, q: Rounds, early: set<Message>)
    requires Trims(h, h', i, last) && LeaderOk(h, j, mem, q, early) && j != i
    ensures LeaderOk(h', j, mem, q, early)
  {
    if Leads(h', j, mem) {
      assert h'.views[mem.view] == h.views[mem.view];
      forall k | 0 <= k < |q.queries|
        ensures QueryOk(h', mem.view, q.queries[k])
      {
        assert QueryOk(h, mem.view, q.queries[k]);
      }
      if w :| w > mem.view && OnRecord(h, w) {
        assert OnRecord(h', w);
      }
    }
  }

  lemma RepTrims(h: History, h': History, i: nat, last: nat, j: nat, r: Replica)
    requires Trims(h, h', i, last) && HistoryOk(h) && RepOk(h, j, r) && j != i
    ensures RepOk(h', j, r)
  {
    hide ImagesOk, StatusOk, CatchingUpOk, LeadsOk, ReportsOk, EarlyOk, BoxesOk, RecordedOk, AckedOk, WritesOk, ExecutedOk,
      ExecutionOk, AnswersOk, LeaderOk, ViewsOk, MsgsOk, ReportsKeep, CompletedOk, ReachedOk, ConfirmsOk;
    ImagesTrim(h, h', i, last, j, Snapshot(r), r.out, r.disk);
    StatusTrims(h, h', i, last, j, r);
    MailTrims(h, h', i, last, j, r);
    RecordedTrims(h, h', i, last, j, r.status, r.view, Said(h, r), r.dvcFrom);
    ExecutionTrims(h, h', i, last, j, Snapshot(r), r.changed, r.durable, Latest(r.out, r.disk), r.disk, |r.sm|);
    LeaderTrims(h, h', i, last, j, Snapshot(r), r.q, r.early);
  }

  // ---------------------------------------------------------------------------
  // The replica that comes back

  /** The history after the crash. */
  function Crashed(h: History, i: nat, disk: Image): History
    requires i < |h.reached|
  {
    var h1 := AfterCrash(h, i, disk);
    h1.(views := Forget(h.cfg, i, disk, h1.views))
  }

  lemma CrashedTrims(h: History, i: nat, r: Replica, disk: Image)
    requires i < |h.reached| && h.cfg.gated && LeadsOk(h, i, Snapshot(r), r.disk) && r.disk.lastNormal <= disk.lastNormal
    ensures Trims(AfterCrash(h, i, disk), Crashed(h, i, disk), i, disk.lastNormal)
  {
  }

  lemma LeftTrims(h: History, h': History, i: nat, disk: Image, flushed: Log)
    requires Trims(h, h', i, disk.lastNormal) && h.cfg.Valid() && MsgsOk(h) && DiskLeft(h, i, disk, flushed)
    ensures DiskLeft(h', i, disk, flushed)
  {
    hide MsgsOk, ImageOk, Certain, ReportKeeps, KeepsAcks, ReportsUpTo, ReportsKeepAcks;
    ImageTrims(h, h', i, disk.lastNormal, i, disk);
    CertainTrims(h, h', i, disk.lastNormal, i, disk.view, |flushed|);
  }

  /** The log a replica comes back with: the disk's, but where the state machine holds more ops than the
      disk has as committed, its ops stand in for as many of the disk's. */
  function BackLog(disk: Image, flushed: Log): Log {
    if |flushed| > disk.commit then flushed + Drop(disk.log, |flushed|) else disk.log
  }

  /** The replica rebuilt, in the view it comes back to and as it stands there. */
  function Back(cfg: Config, i: nat, disk: Image, flushed: Log, view: nat): Replica {
    New(cfg).(view := view, lastNormal := disk.lastNormal, commit := Max(disk.commit, |flushed|), log := BackLog(disk, flushed),
              sm := flushed, flushed := flushed, durable := |BackLog(disk, flushed)|, disk := disk,
              status := if disk.lastNormal < view then ViewChange else Normal)
  }

  /** The view a replica comes back to: a primary does not go on leading. */
  function BackIn(cfg: Config, i: nat, disk: Image): nat {
    if disk.lastNormal >= disk.view && cfg.Primary(disk.view) == i then disk.view + 1 else disk.view
  }

  lemma RestartShape(cfg: Config, i: nat, disk: Image, flushed: Log)
    requires disk.lastNormal <= disk.view && disk.commit <= |disk.log|
    ensures var v, log := BackIn(cfg, i, disk), BackLog(disk, flushed);
            var r := ApplyCommitted(cfg, i, Back(cfg, i, disk, flushed, v), |log|);
            Restart(cfg, i, disk, flushed) == (if disk.lastNormal < v then Send(r, StartViewChange(v, i)) else r)
  {
    hide ExecuteQueries;
    var v, log := BackIn(cfg, i, disk), BackLog(disk, flushed);
    var b := Back(cfg, i, disk, flushed, v);
    var to := Min(b.commit, |log|);
    var r := b.(view := disk.view, status := Normal);
    NoQueries(cfg, i, Execute(b, to));
    NoQueries(cfg, i, Execute(r, to));
    assert Execute(b, to) == Execute(r, to).(view := v, status := b.status);
    assert Restart(cfg, i, disk, flushed) ==
      (if disk.lastNormal < v then BeginViewChange(i, Execute(r, to), v) else Execute(r, to));
  }

  lemma NoQueries(cfg: Config, i: nat, r: Replica)
    requires r.q.queries == []
    ensures ExecuteQueries(cfg, i, r) == r
  {
  }

  /** The state machine's ops completed, and what the disk holds after them is its view's. */
  lemma BackHolds(h: History, i: nat, disk: Image, flushed: Log)
    requires DiskLeft(h, i, disk, flushed)
    ensures var log, commit := BackLog(disk, flushed), Max(disk.commit, |flushed|);
            && Holds(h, disk.lastNormal, log, commit) && Certain(h, i, disk.view, commit)
            && |log| == Max(|disk.log|, commit) && flushed <= log
            && Same(disk.log, log, |flushed|, |disk.log|)
  {
    hide KeepsAcks, ReportsUpTo, ReportsKeepAcks, OwnReportsKeep, Certain;
  }

  lemma BackPipeline(h: History, i: nat, disk: Image, flushed: Log, view: nat)
    requires DiskLeft(h, i, disk, flushed) && view >= disk.view
    ensures var log, commit := BackLog(disk, flushed), Max(disk.commit, |flushed|);
            var mem := Image(view, disk.lastNormal, commit, log);
            && ImageOk(h, i, mem) && ImageOk(h, i, disk) && commit <= |h.completed|
            && KeepsAcks(h.msgs, i, mem)
            && WritesOk(|flushed|, log, None, |log|, disk.log, disk.log)
            && ExecutedOk(commit, log, disk.log, disk.log, flushed, flushed)
            && ExecutionOk(h, i, mem, None, |log|, disk, disk, |flushed|)
  {
    BackHolds(h, i, disk, flushed);
    hide ReportsUpTo, ReportsKeepAcks, OwnReportsKeep, Certain, Holds, BackLog;
    var commit := Max(disk.commit, |flushed|);
    CertainLess(h, i, disk.view, commit, view, commit);
    CertainBound(h, i, disk.view, commit);
  }

  lemma CertainBound(h: History, i: nat, v: nat, n: nat)
    requires Certain(h, i, v, n)
    ensures n <= |h.completed|
  {
  }

  lemma BackOk(h: History, i: nat, disk: Image, flushed: Log)
    requires h.cfg.Valid() && DiskLeft(h, i, disk, flushed) && i < h.cfg.n && i < |h.reached| && h.reached[i] == disk.view && h.cfg.gated
    requires forall v {:trigger h.views[v]} :: v in h.views && h.cfg.Primary(v) == i ==>
               v <= disk.lastNormal && (h.views[v].est <==> v <= disk.lastNormal)
    ensures RepOk(h, i, Back(h.cfg, i, disk, flushed, BackIn(h.cfg, i, disk)))
  {
    var r := Back(h.cfg, i, disk, flushed, BackIn(h.cfg, i, disk));
    BackPipeline(h, i, disk, flushed, r.view);
    hide ReportKeeps, ReportsKeepAcks, OwnReportsKeep, WritesOk, ExecutedOk, ExecutionOk, BackLog, KeepsAcks;
    assert h.msgs + {} + {} == h.msgs && h.msgs + {} == h.msgs;
    assert disk.lastNormal <= disk.view;
    assert !Leads(h, i, Snapshot(r));
    assert EarlyOk(h, i, {}) && BoxOk(h, i, {}, disk.lastNormal, disk.log) && BoxOk(h, i, {}, disk.lastNormal, r.log);
    hide ImageOk, EarlyOk, BoxOk;
  }

  lemma CrashKeeps(h: History, i: nat, r: Replica, disk: Image)
    requires HistoryOk(h) && RepOk(h, i, r) && MayLeave(r, disk) && h.cfg.gated && h.cfg.crashes
    ensures i < |h.reached|
    ensures var h', r' := Crashed(h, i, disk), Restart(h.cfg, i, disk, r.flushed);
            HistoryOk(h') && RepOk(h', i, r') && Complete(h.completed, r') == h.completed
  {
    hide HistoryOk, RepOk, DiskLeft, Trims, ApplyCommitted;
    DiskLeftOk(h, i, r, disk);
    var h1, h' := AfterCrash(h, i, disk), Crashed(h, i, disk);
    AfterGrows(h, i, disk);
    AfterOk(h, i, disk);
    AfterLeft(h, i, disk, r.flushed);
    CrashedTrims(h, i, r, disk);
    HistoryTrims(h1, h', i, disk.lastNormal);
    ValidParts(h1);
    LeftTrims(h1, h', i, disk, r.flushed);
    BackOk(h', i, disk, r.flushed);
    var v := BackIn(h.cfg, i, disk);
    var b := Back(h.cfg, i, disk, r.flushed, v);
    var top := |BackLog(disk, r.flushed)|;
    ApplyCommittedOk(h', i, b, top);
    LeftParts(h', i, disk, r.flushed);
    RestartShape(h.cfg, i, disk, r.flushed);
    if disk.lastNormal < v {
      SendOk(h', i, ApplyCommitted(h.cfg, i, b, top), StartViewChange(v, i));
    }
    CommitWithin(h', i, b);
  }

  lemma ValidParts(h: History)
    requires HistoryOk(h)
    ensures h.cfg.Valid() && MsgsOk(h)
  {
  }

  lemma LeftParts(h: History, i: nat, disk: Image, flushed: Log)
    requires DiskLeft(h, i, disk, flushed)
    ensures disk.lastNormal <= disk.view && disk.commit <= |disk.log|
  {
  }

  lemma CrashApart(h: History, i: nat, r: Replica, disk: Image, j: nat, rj: Replica)
    requires HistoryOk(h) && RepOk(h, i, r) && MayLeave(r, disk) && h.cfg.gated && h.cfg.crashes && RepOk(h, j, rj) && j != i && j < |h.reached|
    ensures i < |h.reached| && RepOk(Crashed(h, i, disk), j, rj)
  {
    hide HistoryOk, RepOk, Trims, DiskLeft;
    DiskLeftOk(h, i, r, disk);
    var h1, h' := AfterCrash(h, i, disk), Crashed(h, i, disk);
    AfterOk(h, i, disk);
    AfterApart(h, i, disk, j);
    RepApartQuiet(h, h1, j, rj);
    CrashedTrims(h, i, r, disk);
    RepTrims(h1, h', i, disk.lastNormal, j, rj);
  }
}
