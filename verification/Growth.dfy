/** The history only grows, and what holds of it goes on holding as it does. */
module Growth {
  import opened Types
  import opened Quorums
  import opened Protocol
  import opened Cluster
  import opened Invariant

  ghost predicate ViewGrows(a: View, b: View) {
    a.init == b.init && a.origin == b.origin && a.born == b.born && a.log <= b.log && (a.est ==> b.est)
  }

  /** `h'` extends `h`. */
  ghost predicate Grows(h: History, h': History) {
    && h'.cfg == h.cfg
    && h.starts <= h'.starts
    && h.msgs <= h'.msgs
    && h.confirms <= h'.confirms
    && h.completed <= h'.completed
    && (forall v {:trigger v in h'.views} {:trigger v in h.views} ::
        v in h.views ==> v in h'.views && ViewGrows(h.views[v], h'.views[v]))
    && |h.reached| == |h'.reached|
    && (forall j :: 0 <= j < |h.reached| ==> h.reached[j] <= h'.reached[j])
  }

  lemma ChosenGrows(h: History, h': History, v: nat, n: nat)
    requires Grows(h, h') && Chosen(h, v, n)
    ensures Chosen(h', v, n)
  {
    var q :| AckQuorum(h, v, n, q);
    forall j | j in q
      ensures Acked(h', v, n, j)
    {
      assert Acked(h, v, n, j);
    }
    assert AckQuorum(h', v, n, q);
  }

  lemma ChosenByGrows(h: History, h': History, v: nat, n: int)
    requires Grows(h, h') && ChosenBy(h, v, n)
    ensures ChosenBy(h', v, n)
  {
    if n > 0 {
      var u: nat :| u <= v && Chosen(h, u, n);
      ChosenGrows(h, h', u, n);
    }
  }

  lemma ChosenLess(h: History, u: nat, n: nat, m: nat)
    requires Chosen(h, u, n) && m <= n
    ensures Chosen(h, u, m)
  {
    var q :| AckQuorum(h, u, n, q);
    forall j | j in q
      ensures Acked(h, u, m, j)
    {
      assert Acked(h, u, n, j);
    }
    assert AckQuorum(h, u, m, q);
  }

  /** Fewer ops, or a later view, are chosen too. */
  lemma ChosenByLess(h: History, v: nat, n: int, w: nat, m: int)
    requires ChosenBy(h, v, n) && m <= n && v <= w
    ensures ChosenBy(h, w, m)
  {
    if m > 0 {
      var u: nat :| u <= v && Chosen(h, u, n);
      ChosenLess(h, u, n, m);
    }
  }

  lemma CertainGrows(h: History, h': History, i: nat, v: nat, n: int)
    requires Grows(h, h') && Certain(h, i, v, n)
    ensures Certain(h', i, v, n)
  {
    if n > 0 {
      var u: nat :| ChosenFor(h, i, v, u, n);
      ChosenGrows(h, h', u, n);
      assert ChosenFor(h', i, v, u, n);
    }
  }

  /** So are fewer ops in a later view. */
  lemma CertainLess(h: History, i: nat, v: nat, n: int, w: nat, m: int)
    requires Certain(h, i, v, n) && m <= n && v <= w
    ensures Certain(h, i, w, m)
  {
    if m > 0 {
      var u: nat :| ChosenFor(h, i, v, u, n);
      ChosenLess(h, u, n, m);
      assert ChosenFor(h, i, w, u, m);
    }
  }

  /** What a view up to this one chose is certain. */
  lemma ChosenByCertain(h: History, i: nat, v: nat, n: int)
    requires ChosenBy(h, v, n)
    ensures Certain(h, i, v, n)
  {
    if n > 0 {
      var u: nat :| u <= v && Chosen(h, u, n);
      assert ChosenFor(h, i, v, u, n);
    }
  }

  /** What is certain for a replica was chosen, by a view up to its own if another is no further. */
  lemma CertainChosen(h: History, i: nat, v: nat, n: int, j: nat)
    requires Certain(h, i, v, n) && j != i && j < |h.reached| && h.reached[j] <= v
    ensures ChosenBy(h, v, n)
  {
    if n > 0 {
      var u: nat :| ChosenFor(h, i, v, u, n);
    }
  }

  lemma HoldsGrows(h: History, h': History, v: nat, log: Log, c: nat)
    requires Grows(h, h') && Holds(h, v, log, c)
    ensures Holds(h', v, log, c)
  {
    assert h.completed <= h'.completed && h.views[v].log <= h'.views[v].log;
  }

  lemma ImageGrows(h: History, h': History, i: nat, a: Image)
    requires Grows(h, h') && ImageOk(h, i, a)
    ensures ImageOk(h', i, a)
  {
    HoldsGrows(h, h', a.lastNormal, a.log, a.commit);
    CertainGrows(h, h', i, a.view, a.commit);
  }

  lemma MsgGrows(h: History, h': History, i: nat, m: Message)
    requires Grows(h, h') && MsgOk(h, i, m)
    ensures MsgOk(h', i, m)
  {
    hide Certain, Holds;
    match m
    case Prepare(v, op, e, c) => CertainGrows(h, h', h.cfg.Primary(v), v, c);
    case Commit(v, c) => CertainGrows(h, h', h.cfg.Primary(v), v, c);
    case NewState(_, _, v, _, _, c) => CertainGrows(h, h', h.cfg.Primary(v), v, c);
    case StartView(v, log, c) => CertainGrows(h, h', h.cfg.Primary(v), v, c);
    case DoViewChange(v, j, d) => ImageGrows(h, h', i, Image(v, d.lastNormal, d.commit, d.log));
    case _ =>
  }

  lemma SentGrows(h: History, h': History, m: Message)
    requires Grows(h, h') && SentOk(h, m)
    ensures SentOk(h', m)
  {
    MsgGrows(h, h', Sender(m), m);
  }

  lemma SettledGrows(h: History, h': History, log: Log, c: nat, born: nat)
    requires Grows(h, h') && Settled(h, log, c, born)
    ensures Settled(h', log, c, born)
  {
    if c > 0 {
      var u: nat :| Chosen(h, u, c) && h.views[u].born < born && Same(log, h.views[u].log, 0, c);
      ChosenGrows(h, h', u, c);
      assert h.views[u].log <= h'.views[u].log;
    }
  }

  lemma EarlierGrows(h: History, h': History, v: nat, c: nat)
    requires Grows(h, h') && Earlier(h, v, c)
    ensures Earlier(h', v, c)
  {
    if !h.cfg.Strays() && v > 0 {
      ChosenByGrows(h, h', v - 1, c);
    }
  }

  lemma ReportedGrows(h: History, h': History, v: nat, born: nat, j: nat, d: Report, best: Report)
    requires Grows(h, h') && ReportedBy(h, v, born, j, d, best)
    ensures ReportedBy(h', v, born, j, d, best)
  {
    hide Settled, Earlier, ImageOk;
    ImageGrows(h, h', j, Image(v, d.lastNormal, d.commit, d.log));
    SettledGrows(h, h', d.log, d.commit, born);
    EarlierGrows(h, h', v, d.commit);
    assert d.lastNormal in h.views by { ImageView(h, j, Image(v, d.lastNormal, d.commit, d.log)); }
  }

  lemma ImageView(h: History, i: nat, a: Image)
    requires ImageOk(h, i, a)
    ensures a.lastNormal in h.views
  {
  }

  lemma OriginGrows(h: History, h': History, v: nat, born: nat, init: Log, o: Origin)
    requires Grows(h, h') && OriginOk(h, v, born, init, o)
    ensures OriginOk(h', v, born, init, o)
  {
    hide Settled, Earlier, ReportedBy, Grows;
    assert h'.cfg == h.cfg by { SameConfig(h, h'); }
    forall j | j in o.reports
      ensures ReportedBy(h', v, born, j, o.reports[j], o.reports[o.best])
    {
      ReportedGrows(h, h', v, born, j, o.reports[j], o.reports[o.best]);
    }
    SettledGrows(h, h', init, o.kept, born);
    EarlierGrows(h, h', v, o.kept);
  }

  lemma SameConfig(h: History, h': History)
    requires Grows(h, h')
    ensures h'.cfg == h.cfg
  {
  }

  lemma ViewOkGrows(h: History, h': History, v: nat)
    requires Grows(h, h') && v in h.views && ViewOk(h, v)
    ensures ViewOk(h', v)
  {
    hide OriginOk;
    assert ViewGrows(h.views[v], h'.views[v]);
    if v > 0 {
      OriginGrows(h, h', v, h.views[v].born, h.views[v].init, h.views[v].origin);
    }
  }

  lemma CompletedGrows(h: History, h': History)
    requires Grows(h, h') && CompletedOk(h) && h'.completed == h.completed
    ensures CompletedOk(h')
  {
    if h.completed != [] {
      var u: nat :| Chosen(h, u, |h.completed|) && h.completed <= h.views[u].log;
      ChosenGrows(h, h', u, |h.completed|);
    }
  }
}
