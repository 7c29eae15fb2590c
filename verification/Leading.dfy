/** What a primary does in its view: it appends, and commits what a quorum acknowledged. */
module Leading {
  import opened Types
  import opened Quorums
  import opened Protocol
  import opened Cluster
  import opened Invariant
  import opened Growth
  import opened Safety
  import opened Steps
  import opened Entering
  import opened Others
  import opened Handlers
  import opened Reads

  // ---------------------------------------------------------------------------
  // Appending

  /** The history once the primary of view `v` appended `e`. */
  function Appended(h: History, v: nat, e: LogEntry): History
    requires v in h.views
  {
    h.(views := h.views[v := h.views[v].(log := h.views[v].log + [e])])
  }

  lemma AppendLeaderOk(h: History, i: nat, mem: Image, q: Rounds, early: set<Message>, e: LogEntry)
    requires Leads(h, i, mem) && LeaderOk(h, i, mem, q, early)
    ensures LeaderOk(Appended(h, mem.view, e), i, mem.(log := mem.log + [e]), q, early)
  {
    var h' := Appended(h, mem.view, e);
    forall k | 0 <= k < |q.queries|
      ensures QueryOk(h', mem.view, q.queries[k])
    {
      assert QueryOk(h, mem.view, q.queries[k]);
    }
    assert KnowsCompleted(h', mem.view, mem.commit) by {
      if w :| w > mem.view && OnRecord(h, w) {
        assert OnRecord(h', w);
      }
    }
  }

  lemma AppendViewOk(h: History, i: nat, mem: Image, disk: Image, e: LogEntry)
    requires Leads(h, i, mem) && LeadsOk(h, i, mem, disk) && ImageOk(h, i, mem)
    ensures var h', mem' := Appended(h, mem.view, e), mem.(log := mem.log + [e]);
            Grows(h, h') && LeadsOk(h', i, mem', disk) && ImageOk(h', i, mem')
  {
    ImageGrows(h, Appended(h, mem.view, e), i, mem);
  }

  lemma BoxesLonger(h: History, i: nat, v: nat, log: Log, log': Log, out: Option<Image>, disk: Image, waiting: set<Message>, outbox: set<Message>)
    requires BoxesOk(h, i, v, log, out, disk, waiting, outbox) && log <= log'
    ensures BoxesOk(h, i, v, log', out, disk, waiting, outbox)
  {
    hide BoxOk;
    BoxLonger(h, i, outbox, v, log, log');
  }

  lemma AppendCoreOk(h: History, i: nat, r: Replica, e: LogEntry)
    requires RepCore(h, i, r) && Leads(h, i, Snapshot(r))
    ensures RepCore(Appended(h, r.view, e), i, Append(r, e))
  {
    hide EarlyOk, BoxesOk, ReportsOk, RecordedOk, ExecutionOk, WritesOk, AnswersOk, LeadsOk, ImageOk, Grows;
    var h', r' := Appended(h, r.view, e), Append(r, e);
    var latest := Latest(r.out, r.disk);
    assert BoxesOk(h', i, r.lastNormal, r'.log, r.out, r.disk, r.waiting, r.outbox) by {
      PartsGrow(h, h', i, r) by { AppendViewOk(h, i, Snapshot(r), r.disk, e); }
      BoxesLonger(h', i, r.lastNormal, r.log, r'.log, r.out, r.disk, r.waiting, r.outbox);
    }
    AppendViewOk(h, i, Snapshot(r), r.disk, e);
    assert SaidSame(h, h', i);
    PartsGrow(h, h', i, r);
    SaidGrows(h, h', i, r.view, r.out, r.disk, r.waiting, r.outbox);
    RecordedGrows(h, h', i, r.status, r.view, Said(h, r), Said(h', r), r.dvcFrom);
    WritesChange(|r.flushed|, r.log, r.changed, r.durable, latest.log, r.disk.log, r'.log, |r.log| + 1, |r.flushed|);
    MarkedFromOne(|r.flushed|, r.log, r.changed, r.durable, latest.log, r.disk.log);
    ExecutionChange(h', i, Snapshot(r), r.changed, r.durable, latest, r.disk, |r.sm|, Snapshot(r'), |r.log| + 1);
  }

  lemma RequestKeeps(h: History, i: nat, r: Replica, e: LogEntry)
    requires RepOk(h, i, r) && h.cfg.Primary(r.view) == i && r.status == Normal
    ensures r.view in h.views && RepOk(Appended(h, r.view, e), i, OnRequest(h.cfg, i, r, e))
  {
    RepFacts(h, i, r);
    LeaderParts(h, i, r);
    var h', r1 := Appended(h, r.view, e), Append(r, e);
    assert RepOk(h', i, r1) by {
      hide RepCore, LeaderOk;
      AppendCoreOk(h, i, r, e);
      AppendLeaderOk(h, i, Snapshot(r), r.q, r.early, e);
    }
    hide RepOk;
    assert Certain(h', i, r.view, r.commit) by { CertainGrows(h, h', i, r.view, r.commit); }
    SendEarlyOk(h', i, r1, Prepare(r.view, |r1.log|, e, r.commit));
  }

  // ---------------------------------------------------------------------------
  // Committing

  /** The history once `c` ops of view `v` are committed. */
  function Committed(h: History, v: nat, c: nat): History
    requires v in h.views && c <= |h.views[v].log|
  {
    h.(completed := if c > |h.completed| then h.views[v].log[..c] else h.completed)
  }

  /** What a quorum acknowledged extends everything committed before, whoever committed it. */
  lemma CommittedExtends(h: History, v: nat, c: nat)
    requires ViewsOk(h) && ReportsKeep(h) && CompletedOk(h) && Chosen(h, v, c)
    ensures h.completed <= Committed(h, v, c).completed
  {
    if c > |h.completed| {
      if h.completed != [] {
        var u: nat :| Chosen(h, u, |h.completed|) && h.completed <= h.views[u].log;
        forall x | 0 <= x < |h.completed|
          ensures h.completed[x] == h.views[v].log[x]
        {
          ChosenAgree(h, u, |h.completed|, v, c, x, Born(h, u) + Born(h, v) + 1);
        }
      }
    }
  }

  lemma CommittedOk(h: History, v: nat, c: nat)
    requires HistoryOk(h) && Chosen(h, v, c)
    ensures Grows(h, Committed(h, v, c)) && HistoryOk(Committed(h, v, c)) && Decided(Committed(h, v, c), v, c)
  {
    var h' := Committed(h, v, c);
    CommittedExtends(h, v, c);
    ChosenGrows(h, h', v, c);
    assert Decided(h', v, c) by { CommittedDecides(h, v, c); }
    hide Chosen, Decided;
    assert CompletedOk(h') by {
      if c > |h.completed| {
        assert Chosen(h', v, |h'.completed|);
      } else {
        CompletedGrows(h, h');
      }
    }
    ViewsGrow(h, h');
    MsgsGrow(h, h');
    assert ReportsKeep(h');
    assert ReachedOk(h') by {
      assert forall w: nat {:trigger OnRecord(h', w)} :: OnRecord(h', w) ==> OnRecord(h, w);
    }
  }

  lemma CommittedDecides(h: History, v: nat, c: nat)
    requires ViewsOk(h) && ReportsKeep(h) && CompletedOk(h) && Chosen(h, v, c) && Chosen(Committed(h, v, c), v, c)
    ensures Decided(Committed(h, v, c), v, c)
  {
    if c <= |h.completed| {
      ChosenCompleted(h, v, c);
    }
  }

  lemma ViewsGrow(h: History, h': History)
    requires ViewsOk(h) && Grows(h, h') && h'.views.Keys == h.views.Keys
    ensures ViewsOk(h')
  {
    forall v | v in h'.views
      ensures ViewOk(h', v)
    {
      assert ViewOk(h, v);
      ViewOkGrows(h, h', v);
    }
  }

  lemma MsgsGrow(h: History, h': History)
    requires MsgsOk(h) && Grows(h, h') && h'.msgs == h.msgs
    ensures MsgsOk(h')
  {
    forall m | m in h'.msgs
      ensures SentOk(h', m)
    {
      assert SentOk(h, m);
      SentGrows(h, h', m);
    }
  }

  lemma AckedChosen(h: History, i: nat, mem: Image, acked: seq<nat>, c: nat)
    requires AckedOk(h, i, mem, acked) && Leads(h, i, mem) && mem.log == h.views[mem.view].log
    requires c == QuorumMark(h.cfg, acked, |acked|) && c > 0
    ensures Chosen(h, mem.view, c)
  {
    var q := Reaching(acked, c);
    assert acked[..|acked|] == acked;
    var k :| 0 <= k < |acked| && acked[k] == c;
    forall j | j in q
      ensures Acked(h, mem.view, c, j)
    {
      assert Acked(h, mem.view, acked[j], j);
    }
    assert AckQuorum(h, mem.view, c, q);
  }

  /** Committing `c` ops a quorum acknowledged, in a history that records it. */
  lemma CommitCoreOk(h: History, i: nat, r: Replica, c: nat)
    requires RepCore(h, i, r) && Leads(h, i, Snapshot(r)) && r.commit < c <= |r.log| && c <= |h.views[r.view].log|
    requires Grows(h, Committed(h, r.view, c)) && Decided(Committed(h, r.view, c), r.view, c)
    ensures RepCore(Committed(h, r.view, c), i, r.(commit := c))
  {
    var h' := Committed(h, r.view, c);
    assert RepCore(h', i, r) by {
      hide RepCore;
      assert i < |h.reached| by { CoreInRange(h, i, r); }
      CoreApart(h, h', i, r);
    }
    CommitCore(h', i, r, c);
  }

  lemma CoreInRange(h: History, i: nat, r: Replica)
    requires RepCore(h, i, r)
    ensures i < |h.reached|
  {
  }

  lemma CommitLeaderOk(h: History, i: nat, mem: Image, q: Rounds, early: set<Message>, c: nat)
    requires LeaderOk(h, i, mem, q, early) && Leads(h, i, mem) && mem.commit < c <= |h.views[mem.view].log|
    ensures LeaderOk(Committed(h, mem.view, c), i, mem.(commit := c), q, early)
  {
    var h' := Committed(h, mem.view, c);
    assert KnowsCompleted(h', mem.view, c) by {
      if w :| w > mem.view && OnRecord(h, w) {
        assert OnRecord(h', w);
      }
    }
    forall k | 0 <= k < |q.queries|
      ensures QueryOk(h', mem.view, q.queries[k])
    {
      assert QueryOk(h, mem.view, q.queries[k]);
    }
  }

  lemma CountAckOk(h: History, i: nat, r: Replica, from: nat, op: nat)
    requires RepOk(h, i, r) && from < |r.acked| && op <= |r.log| && Acked(h, r.view, op, from)
    ensures RepOk(h, i, r.(acked := r.acked[from := op]))
  {
    hide ImagesOk, StatusOk, LeadsOk, CatchingUpOk, BoxesOk, AcksOk, ReportsOk, RecordedOk, WritesOk, ExecutedOk,
      ExecutionOk, EarlyOk, AnswersOk, LeaderOk;
  }

  /** Only the commit number, what it lets execute and the acknowledgements counted change. */
  ghost predicate OnlyCommits(r: Replica, r': Replica) {
    r' == r.(acked := r'.acked, commit := r'.commit, sm := r'.sm, q := r.q.(queries := r'.q.queries), answers := r'.answers)
  }

  /** Committing what the acknowledgements counted amount to. */
  lemma CommitAckedKeeps(h: History, i: nat, r: Replica, c: nat)
    requires HistoryOk(h) && RepOk(h, i, r) && Leads(h, i, Snapshot(r)) && r.log == h.views[r.view].log
    requires c == QuorumMark(h.cfg, r.acked, |r.acked|) && c > r.commit
    ensures Chosen(h, r.view, c) && c <= |r.log|
    ensures var h', r' := Committed(h, r.view, c), CommitUpTo(h.cfg, i, r, c);
            HistoryOk(h') && RepOk(h', i, r') && h.completed <= h'.completed && OnlyCommits(r, r') && r'.commit == c
  {
    hide HistoryOk, RepCore, LeaderOk, QuorumMark, Decided;
    AckedPart(h, i, r);
    AckedChosen(h, i, Snapshot(r), r.acked, c);
    var h' := Committed(h, r.view, c);
    CommittedOk(h, r.view, c);
    CommitCoreOk(h, i, r, c);
    CommitLeaderOk(h, i, Snapshot(r), r.q, r.early, c);
    ValidPart(h');
    ApplyCommittedOk(h', i, r.(commit := c), DurableOp(r));
  }

  /** Counting an acknowledgement keeps the invariant, in the history that records what it commits. */
  lemma RegisterAckKeeps(h: History, i: nat, r: Replica, from: nat, op: int) returns (h': History)
    requires HistoryOk(h) && RepOk(h, i, r) && h.cfg.Primary(r.view) == i && r.status == Normal
    requires Min(op, |r.log|) > 0 ==> Acked(h, r.view, Min(op, |r.log|), from)
    ensures var r' := RegisterAck(h.cfg, i, r, from, op);
            && OnlyCommits(r, r') && h' == h.(completed := Complete(h.completed, r')) && HistoryOk(h') && RepOk(h', i, r')
            && (h' == h || (r.view in h.views && Chosen(h, r.view, |h'.completed|) && h.completed <= h'.completed))
  {
    hide HistoryOk, RepOk, QuorumMark, Chosen, ImageOk, RoundsOk, QueriesOk, KnowsCompleted;
    RepFacts(h, i, r);
    LeaderParts(h, i, r);
    var op' := Min(op, |r.log|);
    h' := h;
    CommitWithin(h, i, r);
    if from < |r.acked| && op' > r.acked[from] {
      var r1 := r.(acked := r.acked[from := op']);
      CountAckOk(h, i, r, from, op');
      var c := QuorumMark(h.cfg, r1.acked, |r1.acked|);
      if c > r.commit {
        CommitAckedKeeps(h, i, r1, c);
        h' := Committed(h, r.view, c);
      }
    }
  }

  lemma AckedPart(h: History, i: nat, r: Replica)
    requires RepOk(h, i, r)
    ensures AckedOk(h, i, Snapshot(r), r.acked)
  {
  }

  lemma CommitWithin(h: History, i: nat, r: Replica)
    requires RepOk(h, i, r)
    ensures r.commit <= |h.completed|
  {
  }
}
