/** View change messages keep the invariant, whether or not they start a view. */
module Changing {
  import opened Types
  import opened Quorums
  import opened Protocol
  import opened Cluster
  import opened Invariant
  import opened Growth
  import opened Safety
  import opened Steps
  import opened Entering
  import opened Others
  import opened Handlers
  import opened Reads
  import opened Leading
  import opened Starting

  /** A step that starts a view, or none and then is quiet. */
  ghost predicate Moves(h: History, i: nat, r: Replica, r': Replica, h': History) {
    || (h' == h && Quiet(h, i, r, r'))
    || (&& h' == Started(h, r'.view, r'.log, r'.origin) && HistoryOk(h') && RepOk(h', i, r')
        && h.cfg.Primary(r'.view) == i && r'.lastNormal == r'.view && r'.view !in h.views && r'.commit <= |h.completed|)
  }

  lemma RecordOk(h: History, i: nat, r: Replica, from: nat, d: Report)
    requires RepOk(h, i, r) && r.status == ViewChange && h.cfg.Primary(r.view) == i && from < h.cfg.n
    requires ReportOk(h, from, r.view, d)
    requires if from != i then DoViewChange(r.view, from, d) in h.msgs else ReportKeeps(Said(h, r), i, r.view, d) && d.commit <= r.commit
    ensures RepOk(h, i, r.(dvcFrom := r.dvcFrom[from := d]))
  {
    hide ImagesOk, StatusOk, LeadsOk, CatchingUpOk, BoxesOk, AcksOk, ReportsOk, WritesOk, ExecutedOk,
      ExecutionOk, AckedOk, EarlyOk, AnswersOk, LeaderOk, ReportOk, ReportKeeps;
  }

  lemma RecordReportKeeps(h: History, i: nat, r: Replica, from: nat, d: Report) returns (h': History)
    requires HistoryOk(h) && RepOk(h, i, r) && r.status == ViewChange && h.cfg.Primary(r.view) == i && from < h.cfg.n
    requires ReportOk(h, from, r.view, d)
    requires if from != i then DoViewChange(r.view, from, d) in h.msgs else ReportKeeps(Said(h, r), i, r.view, d) && d.commit <= r.commit
    ensures Moves(h, i, r, RecordReport(h.cfg, i, r, from, d), h')
  {
    hide HistoryOk, RepOk, ReportOk, ReportKeeps, TryStartView;
    RepFacts(h, i, r);
    RecordOk(h, i, r, from, d);
    var r1 := r.(dvcFrom := r.dvcFrom[from := d]);
    h' := h;
    if |r1.dvcFrom| >= h.cfg.Quorum() {
      h' := TryStartKeeps(h, i, r1);
    }
  }

  lemma OwnReport(h: History, i: nat, r: Replica)
    requires RepOk(h, i, r) && r.status == ViewChange
    ensures i < h.cfg.n && ReportOk(h, i, r.view, ReportOf(r)) && ReportKeeps(Said(h, r), i, r.view, ReportOf(r))
  {
    hide BoxesOk, ReportsOk, WritesOk, ExecutedOk, ExecutionOk, AckedOk, EarlyOk, AnswersOk, LeaderOk, LeadsOk, RecordedOk;
  }

  lemma SendDvcOk(h: History, i: nat, r: Replica)
    requires RepOk(h, i, r) && r.status == ViewChange
    ensures RepOk(h, i, Send(r, DoViewChange(r.view, i, ReportOf(r))))
  {
    OwnReport(h, i, r);
    hide ImagesOk, StatusOk, LeadsOk, CatchingUpOk, WritesOk, ExecutedOk, ExecutionOk, AckedOk, EarlyOk, AnswersOk,
      LeaderOk, ReportOk, ReportKeeps, RecordedOk, OwnReportsKeep;
    var m := DoViewChange(r.view, i, ReportOf(r));
    var said, said' := Said(h, r), Said(h, Send(r, m));
    assert said' == said + {m};
    SameAcks(h, i, r.status, r.view, said, said', r.dvcFrom, m);
    forall w: nat, d | DoViewChange(w, i, d) in said'
      ensures ReportKeeps(said', i, w, d)
    {
      assert (d == ReportOf(r) && w == r.view) || DoViewChange(w, i, d) in said;
      KeepsSame(said, said', i, w, d, m);
    }
  }

  lemma KeepsSame(said: set<Message>, said': set<Message>, i: nat, w: nat, d: Report, m: Message)
    requires said' == said + {m} && m.DoViewChange? && ReportKeeps(said, i, w, d)
    ensures ReportKeeps(said', i, w, d)
  {
  }

  lemma SameAcks(h: History, i: nat, status: Status, view: nat, said: set<Message>, said': set<Message>, dvcFrom: map<nat, Report>, m: Message)
    requires said' == said + {m} && m.DoViewChange?
    requires RecordedOk(h, i, status, view, said, dvcFrom) && OwnReportsKeep(h, said, i)
    ensures RecordedOk(h, i, status, view, said', dvcFrom) && OwnReportsKeep(h, said', i)
  {
    hide ReportKeeps;
    if i in dvcFrom {
      KeepsSame(said, said', i, view, dvcFrom[i], m);
    }
    forall w | w in h.views && h.cfg.Primary(w) == i && i in h.views[w].origin.reports
      ensures ReportKeeps(said', i, w, h.views[w].origin.reports[i])
    {
      KeepsSame(said, said', i, w, h.views[w].origin.reports[i], m);
    }
  }

  lemma SendReportKeeps(h: History, i: nat, r: Replica) returns (h': History)
    requires HistoryOk(h) && RepOk(h, i, r) && r.status == ViewChange
    ensures Moves(h, i, r, SendReport(h.cfg, i, r), h')
  {
    hide HistoryOk, RepOk, ReportOk, ReportKeeps, RecordReport;
    OwnReport(h, i, r);
    RepFacts(h, i, r);
    h' := h;
    if h.cfg.Primary(r.view) == i {
      h' := RecordReportKeeps(h, i, r, i, ReportOf(r));
    } else {
      SendDvcOk(h, i, r);
    }
  }

  lemma VoteOk(h: History, i: nat, r: Replica, svcFrom: set<nat>, dvcSent: bool)
    requires RepOk(h, i, r)
    ensures RepOk(h, i, r.(svcFrom := svcFrom, dvcSent := dvcSent))
  {
    hide ImagesOk, StatusOk, LeadsOk, CatchingUpOk, BoxesOk, AcksOk, ReportsOk, RecordedOk, WritesOk, ExecutedOk,
      ExecutionOk, AckedOk, EarlyOk, AnswersOk, LeaderOk;
  }

  lemma MaybeSendReportKeeps(h: History, i: nat, r: Replica) returns (h': History)
    requires HistoryOk(h) && RepOk(h, i, r) && r.status == ViewChange
    ensures Moves(h, i, r, MaybeSendReport(h.cfg, i, r), h')
  {
    hide HistoryOk, RepOk, SendReport;
    RepFacts(h, i, r);
    h' := h;
    if r.catchingUp.None? && !r.dvcSent && |r.svcFrom| >= h.cfg.n / 2 {
      VoteOk(h, i, r, r.svcFrom, true);
      h' := SendReportKeeps(h, i, r.(dvcSent := true));
    }
  }

  /** The primary of a view that has started sends it again. */
  lemma ResendStartViewOk(h: History, i: nat, r: Replica)
    requires RepOk(h, i, r) && r.status == Normal && h.cfg.Primary(r.view) == i
    ensures Quiet(h, i, r, Send(r, StartView(r.view, r.log, r.commit)))
  {
    hide RepOk;
    RepFacts(h, i, r);
    SendOk(h, i, r, StartView(r.view, r.log, r.commit));
  }

  lemma StartViewChangeKeeps(h: History, i: nat, r: Replica, v: nat, from: nat) returns (h': History)
    requires HistoryOk(h) && RepOk(h, i, r)
    ensures Moves(h, i, r, OnStartViewChange(h.cfg, i, r, v, from), h')
  {
    hide HistoryOk, RepOk, MaybeSendReport;
    RepFacts(h, i, r);
    h' := h;
    if v == r.view && r.status != ViewChange {
      if r.status == Normal && h.cfg.Primary(v) == i {
        ResendStartViewOk(h, i, r);
      }
    } else if v >= r.view {
      var r1 := if v > r.view then BeginViewChange(i, r, v) else r;
      if v > r.view {
        BeginViewChangeOk(h, i, r, v);
      }
      VoteOk(h, i, r1, r1.svcFrom + {from}, r1.dvcSent);
      h' := MaybeSendReportKeeps(h, i, r1.(svcFrom := r1.svcFrom + {from}));
    }
  }

  lemma DoViewChangeKeeps(h: History, i: nat, r: Replica, v: nat, from: nat, d: Report) returns (h': History)
    requires HistoryOk(h) && RepOk(h, i, r) && DoViewChange(v, from, d) in h.msgs && from != i
    ensures Moves(h, i, r, OnDoViewChange(h.cfg, i, r, v, from, d), h')
  {
    assert SentOk(h, DoViewChange(v, from, d));
    hide HistoryOk, RepOk, RecordReport, ImageOk;
    RepFacts(h, i, r);
    h' := h;
    if v >= r.view && h.cfg.Primary(v) == i {
      if v == r.view && r.status == Normal {
        ResendStartViewOk(h, i, r);
      } else {
        var r1 := if v > r.view then BeginViewChange(i, r, v) else r;
        if v > r.view {
          BeginViewChangeOk(h, i, r, v);
        }
        h' := RecordReportKeeps(h, i, r1, from, d);
      }
    }
  }

  lemma IdleViewChangeKeeps(h: History, i: nat, r: Replica) returns (h': History)
    requires HistoryOk(h) && RepOk(h, i, r)
    ensures Moves(h, i, r, OnIdleViewChange(h.cfg, i, r), h')
  {
    hide HistoryOk, RepOk, SendReport;
    RepFacts(h, i, r);
    h' := h;
    if r.status == ViewChange {
      var r1 := r;
      if r.catchingUp.Some? {
        SendEarlyOk(h, i, r, GetState(i, r.catchingUp.value, r.view, r.commit));
        r1 := SendEarly(r, GetState(i, r.catchingUp.value, r.view, r.commit));
      }
      var r2 := r1;
      if r.catchingUp.None? || r.dvcSent {
        SendOk(h, i, r1, StartViewChange(r.view, i));
        r2 := Send(r1, StartViewChange(r.view, i));
      }
      if r.dvcSent && r.catchingUp.None? {
        h' := SendReportKeeps(h, i, r2);
      }
    }
  }
}
