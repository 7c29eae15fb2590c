/** Consensus: what a quorum acknowledged in a view is in every later view. */
module Safety {
  import opened Types
  import opened Quorums
  import opened Protocol
  import opened Cluster
  import opened Invariant

  /** The start number of view `v`. */
  function Born(h: History, v: nat): nat { if v in h.views then h.views[v].born else 0 }

  /** A quorum that acknowledged up to op `n` in view `v` meets the reports of a later view `w`:
      some report keeps what its sender acknowledged. */
  lemma SomeReportKeeps(h: History, v: nat, n: nat, w: nat, o: Origin) returns (j: nat)
    requires ReportsKeep(h) && Chosen(h, v, n) && v < w && OriginReports(h, w, Born(h, w), o)
    requires w in h.views && h.views[w].origin == o
    ensures j in o.reports && ReportedBy(h, w, Born(h, w), j, o.reports[j], o.reports[o.best])
    ensures var d := o.reports[j]; Keeps(d.lastNormal, d.log, v, n)
  {
    var q :| AckQuorum(h, v, n, q);
    j := QuorumsMeet(h.cfg, q, o.reports.Keys);
    assert Acked(h, v, n, j);
    var m: nat :| m >= n && PrepareOk(v, m, j) in h.msgs;
    assert ReportedBy(h, w, Born(h, w), j, o.reports[j], o.reports[o.best]);
    assert ReportKeeps(h.msgs, j, w, o.reports[j]);
  }

  lemma OriginParts(h: History, w: nat)
    requires ViewsOk(h) && w in h.views && w > 0
    ensures var o := h.views[w].origin;
            OriginReports(h, w, Born(h, w), o) && OriginLog(h, w, Born(h, w), h.views[w].init, o, o.reports[o.best].log)
            && ReportedBy(h, w, Born(h, w), o.best, o.reports[o.best], o.reports[o.best])
  {
    assert ViewOk(h, w);
  }

  /** A view that chose something started before every later view did. */
  lemma {:induction false} BornBefore(h: History, v: nat, n: nat, w: nat)
    requires ViewsOk(h) && ReportsKeep(h) && Chosen(h, v, n) && w in h.views && v < w
    ensures Born(h, v) < Born(h, w)
    decreases w
  {
    hide ViewsOk, ReportsKeep, OriginLog, Chosen, Settled;
    OriginParts(h, w);
    var o := h.views[w].origin;
    var j := SomeReportKeeps(h, v, n, w, o);
    if v < o.reports[j].lastNormal {
      BornBefore(h, v, n, o.reports[j].lastNormal);
    }
  }

  /** Whatever `d`, a report of view `w`, has of the ops chosen in view `v`, no later than its own last
      normal one, are the entries view `v` chose. */
  lemma {:induction false} ReportHolds(h: History, v: nat, n: nat, w: nat, j: nat, d: Report, best: Report, x: nat)
    requires ViewsOk(h) && ReportsKeep(h) && Chosen(h, v, n) && v < w && w in h.views
    requires ReportedBy(h, w, Born(h, w), j, d, best) && Keeps(d.lastNormal, d.log, v, n) && x < n
    ensures x < |d.log| && d.log[x] == h.views[v].log[x]
    decreases Born(h, w), 1
  {
    hide ViewsOk, ReportsKeep, OriginOk;
    var c, view := d.commit, h.views[d.lastNormal];
    if v < d.lastNormal {
      ChosenKept(h, v, n, d.lastNormal);
      assert view.init <= view.log by { ViewInit(h, d.lastNormal); }
    }
    if x < c {
      var u: nat :| Chosen(h, u, c) && h.views[u].born < Born(h, w) && Same(d.log, h.views[u].log, 0, c);
      BornBefore(h, v, n, w);
      ChosenAgree(h, u, c, v, n, x, Born(h, w));
    } else {
      assert d.log[x] == view.log[x];
    }
  }

  lemma ViewInit(h: History, v: nat)
    requires ViewsOk(h) && v in h.views
    ensures h.views[v].init <= h.views[v].log && h.views[v].born < h.starts
  {
    assert ViewOk(h, v);
  }

  /** The log a view chose holds what was chosen before. */
  lemma {:induction false} BestHolds(h: History, v: nat, n: nat, w: nat, x: nat)
    requires ViewsOk(h) && ReportsKeep(h) && Chosen(h, v, n) && w in h.views && v < w && x < n
    ensures var o := h.views[w].origin;
            && OriginReports(h, w, Born(h, w), o) && OriginLog(h, w, Born(h, w), h.views[w].init, o, o.reports[o.best].log)
            && x < |o.reports[o.best].log| && o.reports[o.best].log[x] == h.views[v].log[x]
    decreases Born(h, w), 2
  {
    hide ViewsOk, ReportsKeep, OriginLog, Chosen, Settled, ReportOk;
    OriginParts(h, w);
    var o := h.views[w].origin;
    var best := o.reports[o.best];
    var j := SomeReportKeeps(h, v, n, w, o);
    assert Ranks(best, o.reports[j]);
    assert Keeps(best.lastNormal, best.log, v, n);
    ReportHolds(h, v, n, w, o.best, best, best, x);
  }

  /** What a quorum acknowledged up to op `n` in view `v` starts the log of every later view `w`:
      by quorum intersection, the report `w` was started from holds it. */
  lemma {:induction false} ChosenKept(h: History, v: nat, n: nat, w: nat)
    requires ViewsOk(h) && ReportsKeep(h) && Chosen(h, v, n) && w in h.views && v < w
    ensures n <= |h.views[w].init| && Same(h.views[w].init, h.views[v].log, 0, n)
    decreases Born(h, w), 3
  {
    hide ViewsOk, ReportsKeep;
    forall x | 0 <= x < n
      ensures x < |h.views[w].init| && h.views[w].init[x] == h.views[v].log[x]
    {
      KeptHere(h, v, n, w, x);
    }
    if n > 0 {
      KeptHere(h, v, n, w, n - 1);
    }
  }

  lemma {:induction false} KeptHere(h: History, v: nat, n: nat, w: nat, x: nat)
    requires ViewsOk(h) && ReportsKeep(h) && Chosen(h, v, n) && w in h.views && v < w && x < n
    ensures x < |h.views[w].init| && h.views[w].init[x] == h.views[v].log[x]
    decreases Born(h, w), 3, 0
  {
    hide ViewsOk, ReportsKeep;
    BestHolds(h, v, n, w, x);
    var o, init := h.views[w].origin, h.views[w].init;
    if x < o.kept {
      var u: nat :| Chosen(h, u, o.kept) && h.views[u].born < Born(h, w) && Same(init, h.views[u].log, 0, o.kept);
      BornBefore(h, v, n, w);
      ChosenAgree(h, u, o.kept, v, n, x, Born(h, w));
    } else {
      assert init[x] == o.reports[o.best].log[x];
    }
  }

  /** What was chosen up to op `n` in view `u` is in the log of view `v`, the same or a later one. */
  lemma {:induction false} KeptHolds(h: History, u: nat, n: nat, v: nat)
    requires ViewsOk(h) && ReportsKeep(h) && Chosen(h, u, n) && u <= v && v in h.views
    ensures n <= |h.views[v].log| && Same(h.views[v].log, h.views[u].log, 0, n)
    decreases Born(h, v), 4
  {
    hide ViewsOk, ReportsKeep;
    if u < v {
      ChosenKept(h, u, n, v);
      ViewInit(h, v);
    }
  }

  /** Two views that chose an op chose the same entry. */
  lemma {:induction false} ChosenAgree(h: History, u: nat, m: nat, v: nat, n: nat, x: nat, born: nat)
    requires ViewsOk(h) && ReportsKeep(h) && Chosen(h, u, m) && Chosen(h, v, n)
    requires x < m && x < n && Born(h, u) < born && Born(h, v) < born
    ensures h.views[u].log[x] == h.views[v].log[x]
    decreases born, 0
  {
    hide ViewsOk, ReportsKeep;
    if u <= v {
      KeptHolds(h, u, m, v);
    } else {
      KeptHolds(h, v, n, u);
    }
  }

  /** What was chosen is what completed. */
  lemma ChosenCompleted(h: History, u: nat, n: nat)
    requires ViewsOk(h) && ReportsKeep(h) && CompletedOk(h) && Chosen(h, u, n) && n <= |h.completed|
    ensures n <= |h.views[u].log| && Same(h.views[u].log, h.completed, 0, n)
  {
    hide ViewsOk, ReportsKeep;
    if n > 0 {
      var v: nat :| Chosen(h, v, |h.completed|) && h.completed <= h.views[v].log;
      forall x | 0 <= x < n
        ensures h.views[u].log[x] == h.completed[x]
      {
        ChosenAgree(h, u, n, v, |h.completed|, x, Born(h, u) + Born(h, v) + 1);
      }
    }
  }

  /** What was chosen by view `v` is in the log of every view from there on. */
  lemma ChosenByHolds(h: History, v: nat, n: nat, w: nat)
    requires ViewsOk(h) && ReportsKeep(h) && CompletedOk(h) && ChosenBy(h, v, n) && v <= w && w in h.views
    ensures n <= |h.views[w].log| && Same(h.views[w].log, h.completed, 0, n)
    ensures v < w ==> n <= |h.views[w].init|
  {
    hide ViewsOk, ReportsKeep, CompletedOk, Chosen;
    if n > 0 {
      var u: nat :| u <= v && Chosen(h, u, n);
      KeptHolds(h, u, n, w);
      ChosenCompleted(h, u, n);
      if v < w {
        ChosenKept(h, u, n, w);
      }
    }
  }

  /** What an image has committed is what completed. */
  lemma ImageCompleted(h: History, i: nat, a: Image)
    requires ImageOk(h, i, a)
    ensures a.commit <= |a.log| && a.log[..a.commit] <= h.completed
  {
    assert a.log[..a.commit] == h.completed[..a.commit] by {
      assert a.commit <= |h.completed|;
      SameStart(a.log, h.completed, a.commit);
    }
  }

  // ---------------------------------------------------------------------------
  // Views that start in time

  /** No replica strays, or no later view had chosen anything when view `w` started. */
  ghost predicate InTime(h: History, w: nat) {
    !h.cfg.Strays() || forall u: nat, c: nat {:trigger Chosen(h, u, c)} :: c > 0 && Chosen(h, u, c) && Born(h, u) < Born(h, w) ==> u < w
  }

  /** Every view that chooses something did. */
  lemma ChosenInTime(h: History, w: nat, n: nat)
    requires ViewsOk(h) && ReportsKeep(h) && Chosen(h, w, n)
    ensures InTime(h, w)
  {
    hide ViewsOk, ReportsKeep;
    forall u: nat, c: nat | c > 0 && Chosen(h, u, c) && Born(h, u) < Born(h, w)
      ensures u < w
    {
      if u > w {
        BornBefore(h, w, n, u);
      }
    }
  }

  /** What was settled before such a view started was chosen by an earlier one. */
  lemma SettledEarlier(h: History, w: nat, log: Log, c: nat) returns (u: nat)
    requires Settled(h, log, c, Born(h, w)) && Earlier(h, w, c) && InTime(h, w) && w in h.views && w > 0 && c > 0
    ensures u < w && Chosen(h, u, c)
  {
    if h.cfg.Strays() {
      u :| Chosen(h, u, c) && h.views[u].born < Born(h, w) && Same(log, h.views[u].log, 0, c);
    } else {
      u :| u <= w - 1 && Chosen(h, u, c);
    }
  }

  /** Such a view takes its log over from another such. */
  lemma BestInTime(h: History, w: nat)
    requires ViewsOk(h) && ReportsKeep(h) && w in h.views && w > 0 && InTime(h, w)
    ensures var o := h.views[w].origin; o.best in o.reports && InTime(h, o.reports[o.best].lastNormal)
  {
    hide ViewsOk, ReportsKeep, OriginLog;
    OriginParts(h, w);
    var o := h.views[w].origin;
    var last := o.reports[o.best].lastNormal;
    if h.cfg.Strays() {
      forall u: nat, c: nat | c > 0 && Chosen(h, u, c) && Born(h, u) < Born(h, last)
        ensures u < last
      {
        if u > last {
          var j := SomeReportKeeps(h, u, c, w, o);
          assert false;
        }
      }
    }
  }
}
