/** A step of one replica keeps the invariant of the others. */
module Others {
  import opened Types
  import opened Quorums
  import opened Protocol
  import opened Cluster
  import opened Invariant
  import opened Growth

  /** The history grows by nothing that is replica `j`'s own. */
  ghost predicate Apart(h: History, h': History, j: nat) {
    && Grows(h, h')
    && (forall v: nat, m: nat :: PrepareOk(v, m, j) in h'.msgs ==> PrepareOk(v, m, j) in h.msgs)
    && (forall w: nat, d :: DoViewChange(w, j, d) in h'.msgs ==> DoViewChange(w, j, d) in h.msgs)
    && (forall w: nat :: StartViewChange(w, j) in h'.msgs ==> StartViewChange(w, j) in h.msgs)
    && (forall v {:trigger h'.views[v]} :: v in h'.views && h'.cfg.Primary(v) == j ==>
        v in h.views && h'.views[v] == h.views[v])
    && j < |h.reached| && h'.reached[j] == h.reached[j]
    && (forall v: nat, x: nat :: ConfirmView(v, x) in h'.msgs && h.cfg.Primary(v) == j ==> ConfirmView(v, x) in h.msgs)
    && (forall v: nat, x: nat, k: nat :: ConfirmViewOk(v, x, k) in h'.confirms ==>
        ConfirmViewOk(v, x, k) in h.confirms || (k < |h.reached| && h.reached[k] <= v))
  }

  lemma EarlyGrows(h: History, h': History, j: nat, early: set<Message>)
    requires Grows(h, h') && EarlyOk(h, j, early)
    ensures EarlyOk(h', j, early)
  {
    forall m | m in early
      ensures MsgOk(h', j, m)
    {
      MsgGrows(h, h', j, m);
    }
  }

  lemma BoxGrows(h: History, h': History, j: nat, box: set<Message>, lastNormal: nat, log: Log)
    requires Grows(h, h') && BoxOk(h, j, box, lastNormal, log)
    ensures BoxOk(h', j, box, lastNormal, log)
  {
    forall m | m in box
      ensures MsgOk(h', j, m)
    {
      MsgGrows(h, h', j, m);
    }
  }

  lemma RecordedGrows(h: History, h': History, j: nat, status: Status, view: nat, said: set<Message>, said': set<Message>, dvcFrom: map<nat, Report>)
    requires Grows(h, h') && RecordedOk(h, j, status, view, said, dvcFrom)
    requires forall v: nat, m: nat :: PrepareOk(v, m, j) in said' ==> PrepareOk(v, m, j) in said
    ensures RecordedOk(h', j, status, view, said', dvcFrom)
  {
    forall k | k in dvcFrom
      ensures ReportOk(h', k, view, dvcFrom[k])
    {
      ImageGrows(h, h', k, Image(view, dvcFrom[k].lastNormal, dvcFrom[k].commit, dvcFrom[k].log));
    }
  }

  lemma AckedGrows(h: History, h': History, j: nat, mem: Image, acked: seq<nat>)
    requires Grows(h, h') && AckedOk(h, j, mem, acked)
    ensures AckedOk(h', j, mem, acked)
  {
    if h.cfg.Primary(mem.view) == j && mem.lastNormal == mem.view {
      forall k | 0 <= k < |acked| && acked[k] > 0
        ensures Acked(h', mem.view, acked[k], k)
      {
        assert Acked(h, mem.view, acked[k], k);
      }
    }
  }

  lemma ExecutionGrows(h: History, h': History, j: nat, mem: Image, changed: Option<nat>, durable: nat, latest: Image, disk: Image, sm: nat)
    requires Grows(h, h') && ExecutionOk(h, j, mem, changed, durable, latest, disk, sm)
    ensures ExecutionOk(h', j, mem, changed, durable, latest, disk, sm)
  {
    hide Certain;
    if h.cfg.crashes {
      CertainGrows(h, h', j, disk.view, sm);
      if disk.lastNormal == mem.lastNormal {
        CertainGrows(h, h', j, disk.view, mem.commit);
      }
      if disk.lastNormal < mem.lastNormal {
        CertainGrows(h, h', j, disk.view, DurableUpTo(durable, changed));
      }
      if latest.lastNormal == mem.lastNormal {
        CertainGrows(h, h', j, latest.view, mem.commit);
      }
      if latest.lastNormal < mem.lastNormal {
        CertainGrows(h, h', j, latest.view, changed.value - 1);
      }
    }
  }

  /** No new acknowledgements or reports of replica `j`, nor views it leads. */
  ghost predicate SaidSame(h: History, h': History, j: nat) {
    && Grows(h, h')
    && (forall v: nat, m: nat :: PrepareOk(v, m, j) in h'.msgs ==> PrepareOk(v, m, j) in h.msgs)
    && (forall w: nat, d :: DoViewChange(w, j, d) in h'.msgs ==> DoViewChange(w, j, d) in h.msgs)
    && (forall w: nat :: StartViewChange(w, j) in h'.msgs ==> StartViewChange(w, j) in h.msgs)
    && (forall v {:trigger h'.views[v]} :: v in h'.views && h'.cfg.Primary(v) == j ==> v in h.views)
  }

  lemma SaidGrows(h: History, h': History, j: nat, view: nat, out: Option<Image>, disk: Image, waiting: set<Message>, outbox: set<Message>)
    requires SaidSame(h, h', j) && ReportsOk(h, j, view, out, disk, waiting, outbox)
    ensures ReportsOk(h', j, view, out, disk, waiting, outbox)
  {
    var said, said' := h.msgs + waiting + outbox, h'.msgs + waiting + outbox;
    forall w: nat, d | DoViewChange(w, j, d) in said'
      ensures ReportKeeps(said', j, w, d)
    {
      assert ReportKeeps(said, j, w, d);
    }
    forall w | w in h'.views && h'.cfg.Primary(w) == j && j in h'.views[w].origin.reports
      ensures ReportKeeps(said', j, w, h'.views[w].origin.reports[j])
    {
      assert ReportKeeps(said, j, w, h.views[w].origin.reports[j]);
    }
  }

  lemma QueryGrows(h: History, h': History, j: nat, v: nat, q: WaitingQuery)
    requires Apart(h, h', j) && QueryOk(h, v, q)
    ensures QueryOk(h', v, q)
  {
    assert h.views[v].log <= h'.views[v].log;
  }

  lemma LeaderGrows(h: History, h': History, j: nat, mem: Image, q: Rounds, early: set<Message>)
    requires Apart(h, h', j) && LeaderOk(h, j, mem, q, early)
    requires Leads(h, j, mem) ==> KnowsCompleted(h', mem.view, mem.commit)
    ensures LeaderOk(h', j, mem, q, early)
  {
    hide KnowsCompleted;
    if Leads(h', j, mem) {
      assert h'.views[mem.view] == h.views[mem.view];
      forall k | 0 <= k < |q.queries|
        ensures QueryOk(h', mem.view, q.queries[k])
      {
        QueryGrows(h, h', j, mem.view, q.queries[k]);
      }
    }
  }

  lemma KnowsGrows(h: History, h': History, view: nat, commit: nat)
    requires Grows(h, h') && KnowsCompleted(h, view, commit) && h'.completed == h.completed
    ensures KnowsCompleted(h', view, commit)
  {
    if w :| w > view && OnRecord(h, w) {
      assert OnRecord(h', w);
    }
  }

  /** What of replica `j` follows from the history growing alone. */
  lemma PartsGrow(h: History, h': History, j: nat, r: Replica)
    requires Grows(h, h') && RepCore(h, j, r)
    ensures ImagesOk(h', j, Snapshot(r), r.out, r.disk)
    ensures EarlyOk(h', j, r.early) && BoxesOk(h', j, r.lastNormal, r.log, r.out, r.disk, r.waiting, r.outbox)
    ensures AckedOk(h', j, Snapshot(r), r.acked)
    ensures ExecutionOk(h', j, Snapshot(r), r.changed, r.durable, Latest(r.out, r.disk), r.disk, |r.sm|)
  {
    hide ImageOk, MsgOk, EarlyOk, BoxOk, ReportsOk, RecordedOk, AckedOk, ExecutionOk, WritesOk, ExecutedOk, AnswersOk, AcksOk, LeadsOk;
    var latest := Latest(r.out, r.disk);
    ImageGrows(h, h', j, Snapshot(r));
    ImageGrows(h, h', j, latest);
    ImageGrows(h, h', j, r.disk);
    EarlyGrows(h, h', j, r.early);
    BoxGrows(h, h', j, r.waiting, latest.lastNormal, latest.log);
    BoxGrows(h, h', j, r.outbox, r.lastNormal, r.log);
    AckedGrows(h, h', j, Snapshot(r), r.acked);
    ExecutionGrows(h, h', j, Snapshot(r), r.changed, r.durable, latest, r.disk, |r.sm|);
  }

  lemma CoreApart(h: History, h': History, j: nat, r: Replica)
    requires Apart(h, h', j) && RepCore(h, j, r)
    ensures RepCore(h', j, r)
  {
    hide ImagesOk, EarlyOk, BoxesOk, ReportsOk, RecordedOk, AckedOk, ExecutionOk, WritesOk, ExecutedOk;
    PartsGrow(h, h', j, r);
    SaidGrows(h, h', j, r.view, r.out, r.disk, r.waiting, r.outbox);
    RecordedGrows(h, h', j, r.status, r.view, Said(h, r), Said(h', r), r.dvcFrom);
  }

  /** What replica `j` satisfies, it goes on satisfying. */
  lemma RepApart(h: History, h': History, j: nat, r: Replica)
    requires Apart(h, h', j) && RepOk(h, j, r)
    requires Leads(h, j, Snapshot(r)) ==> KnowsCompleted(h', r.view, r.commit)
    ensures RepOk(h', j, r)
  {
    hide RepCore;
    CoreApart(h, h', j, r);
    LeaderGrows(h, h', j, Snapshot(r), r.q, r.early);
  }

  /** The common case: nothing new has completed. */
  lemma RepApartQuiet(h: History, h': History, j: nat, r: Replica)
    requires Apart(h, h', j) && RepOk(h, j, r) && h'.completed == h.completed
    ensures RepOk(h', j, r)
  {
    hide RepCore;
    if Leads(h, j, Snapshot(r)) {
      assert KnowsCompleted(h, r.view, r.commit);
      KnowsGrows(h, h', r.view, r.commit);
    }
    RepApart(h, h', j, r);
  }
}
