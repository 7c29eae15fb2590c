/** Log changes and the ways between views keep the invariant of a replica. */
module Entering {
  import opened Types
  import opened Quorums
  import opened Protocol
  import opened Cluster
  import opened Invariant
  import opened Growth
  import opened Safety
  import opened Steps

  /** A log that changes from op `op` on, with the change marked, or in what is flushed now. */
  lemma WritesChange(flushed: nat, log: Log, changed: Option<nat>, durable: nat, latest: Log, disk: Log, log': Log, op: nat, flushed': nat)
    requires WritesOk(flushed, log, changed, durable, latest, disk) && flushed <= flushed'
    requires 1 <= op <= |log| + 1 && op <= |log'| + 1 && Same(log', log, 0, op - 1)
    ensures WritesOk(flushed', log', MarkChanged(changed, op), durable, latest, disk)
    ensures DurableUpTo(durable, MarkChanged(changed, op)) <= DurableUpTo(durable, changed)
    ensures DurableUpTo(durable, MarkChanged(changed, op)) <= op - 1
  {
  }

  lemma MarkedFromOne(flushed: nat, log: Log, changed: Option<nat>, durable: nat, latest: Log, disk: Log)
    requires WritesOk(flushed, log, changed, durable, latest, disk)
    ensures changed.Some? ==> changed.value >= 1
  {
  }

  /** Within the view, or into a later one over what was committed. */
  lemma ExecutionChange(h: History, i: nat, mem: Image, changed: Option<nat>, durable: nat, latest: Image, disk: Image, sm: nat,
                        mem': Image, op: nat)
    requires ExecutionOk(h, i, mem, changed, durable, latest, disk, sm) && op >= 1
    requires disk.lastNormal <= latest.lastNormal <= mem.lastNormal && (changed.Some? ==> changed.value >= 1)
    requires (mem'.lastNormal == mem.lastNormal && mem'.commit == mem.commit) || (mem'.lastNormal > mem.lastNormal && op - 1 <= mem.commit)
    ensures ExecutionOk(h, i, mem', MarkChanged(changed, op), durable, latest, disk, sm)
  {
    hide Certain;
    if h.cfg.crashes {
      var changed' := MarkChanged(changed, op);
      if disk.lastNormal < mem'.lastNormal {
        if disk.lastNormal < mem.lastNormal {
          CertainLess(h, i, disk.view, DurableUpTo(durable, changed), disk.view, DurableUpTo(durable, changed'));
        } else {
          CertainLess(h, i, disk.view, mem.commit, disk.view, DurableUpTo(durable, changed'));
        }
      }
      if latest.lastNormal < mem'.lastNormal {
        if latest.lastNormal < mem.lastNormal {
          CertainLess(h, i, latest.view, changed.value - 1, latest.view, changed'.value - 1);
        } else {
          CertainLess(h, i, latest.view, mem.commit, latest.view, changed'.value - 1);
        }
      }
    }
  }

  /** A state machine that goes past what the write pipeline made durable must be so itself. */
  ghost predicate StateHeld(h: History, i: nat, r: Replica, commit: nat, log: Log, sm: Log, flushed: Log) {
    && |r.flushed| <= |flushed|
    && ExecutedOk(commit, log, Latest(r.out, r.disk).log, r.disk.log, sm, flushed)
    && (h.cfg.crashes ==> Certain(h, i, r.disk.view, |sm|))
  }

  lemma SameState(h: History, i: nat, r: Replica, commit: nat, log: Log)
    requires RepOk(h, i, r) && r.commit <= commit && Same(log, r.log, 0, r.commit) && r.commit <= |log|
    ensures StateHeld(h, i, r, commit, log, r.sm, r.flushed)
  {
    hide CatchingUpOk, BoxesOk, ReportsOk, RecordedOk, EarlyOk, LeaderOk, AnswersOk, WritesOk, AcksOk, LeadsOk, AckedOk, StatusOk, ImagesOk;
    assert r.sm <= log by {
      assert r.sm == r.log[..|r.sm|];
      SameStart(log, r.log, |r.sm|);
    }
  }

  lemma ExecutionMoves(h: History, i: nat, mem: Image, changed: Option<nat>, durable: nat, latest: Image, disk: Image, sm: nat, sm': nat)
    requires ExecutionOk(h, i, mem, changed, durable, latest, disk, sm) && (h.cfg.crashes ==> Certain(h, i, disk.view, sm'))
    ensures ExecutionOk(h, i, mem, changed, durable, latest, disk, sm')
  {
  }

  /** A log that grows or is replaced from op `op` on within the replica's view, no shorter. */
  lemma ChangeLogOk(h: History, i: nat, r: Replica, log': Log, op: nat, sm: Log, flushed: Log, commit: nat)
    requires RepOk(h, i, r) && Holds(h, r.view, log', commit) && |log'| >= |r.log| && r.commit <= commit
    requires 1 <= op <= |r.log| + 1 && Same(log', r.log, 0, op - 1) && (commit == r.commit || ChosenBy(h, r.view, commit))
    requires r.view == r.lastNormal && h.cfg.Primary(r.view) != i && StateHeld(h, i, r, commit, log', sm, flushed)
    ensures RepOk(h, i, r.(log := log', changed := MarkChanged(r.changed, op), commit := commit, sm := sm, flushed := flushed))
  {
    hide CatchingUpOk, BoxesOk, ReportsOk, RecordedOk, EarlyOk, LeaderOk, AnswersOk, WritesOk, ExecutionOk, Certain, ChosenBy, LeadsOk, AckedOk, AcksOk, Holds;
    var latest := Latest(r.out, r.disk);
    var mem := Snapshot(r).(log := log');
    WritesChange(|r.flushed|, r.log, r.changed, r.durable, latest.log, r.disk.log, log', op, |flushed|);
    MarkedFromOne(|r.flushed|, r.log, r.changed, r.durable, latest.log, r.disk.log);
    ExecutionChange(h, i, Snapshot(r), r.changed, r.durable, latest, r.disk, |r.sm|, mem, op);
    ExecutionMoves(h, i, mem, MarkChanged(r.changed, op), r.durable, latest, r.disk, |r.sm|, |sm|);
    if commit > r.commit {
      CommitExecution(h, i, mem, MarkChanged(r.changed, op), r.durable, latest, r.disk, |sm|, commit);
      ChosenByCertain(h, i, r.view, commit);
    }
    BoxesChange(h, i, r, r.view, log');
    NotLeader(h, i, mem.(commit := commit), r.q, r.early);
    LongerLog(h, i, r, log', commit);
  }

  /** What a longer log keeps of a backup. */
  lemma LongerLog(h: History, i: nat, r: Replica, log': Log, commit: nat)
    requires RepCore(h, i, r) && |log'| >= |r.log| && r.view == r.lastNormal && h.cfg.Primary(r.view) != i
    ensures var mem := Snapshot(r).(log := log', commit := commit);
            StatusOk(h, i, r.status, mem, r.disk) && LeadsOk(h, i, mem, r.disk) && AckedOk(h, i, mem, r.acked)
            && AcksOk(h.msgs, i, mem, r.out, r.disk, r.waiting, r.outbox)
  {
    hide CatchingUpOk, BoxesOk, ReportsOk, RecordedOk, EarlyOk, AnswersOk, WritesOk, ExecutionOk, ImagesOk;
  }

  /** What waited for a write of view `v` may wait for one of a later view instead. */
  lemma BoxLater(h: History, i: nat, box: set<Message>, v: nat, log: Log, w: nat, log': Log)
    requires BoxOk(h, i, box, v, log) && v < w && ReportsUpTo(box, i, w)
    ensures BoxOk(h, i, box, w, log')
  {
    hide ReportOk;
    forall m | m in box
      ensures MsgOk(h, i, m) && (m.DoViewChange? ==> m.from == i)
    {
      assert m.DoViewChange? ==> m == DoViewChange(m.view, m.from, m.report);
    }
  }

  /** A backup's log may change in its view: what it said of earlier views stands. */
  lemma BoxSameView(h: History, i: nat, box: set<Message>, v: nat, log: Log, log': Log)
    requires BoxOk(h, i, box, v, log) && h.cfg.Primary(v) != i && ReportsUpTo(box, i, v)
    ensures BoxOk(h, i, box, v, log')
  {
    hide ReportOk;
    forall m | m in box
      ensures MsgOk(h, i, m) && (m.DoViewChange? ==> m.from == i)
    {
      assert m.DoViewChange? ==> m == DoViewChange(m.view, m.from, m.report);
    }
  }

  lemma BoxLonger(h: History, i: nat, box: set<Message>, v: nat, log: Log, log': Log)
    requires BoxOk(h, i, box, v, log) && log <= log'
    ensures BoxOk(h, i, box, v, log')
  {
  }

  /** What waits for the next write, when the log changes in the view or a later view is entered. */
  lemma BoxesChange(h: History, i: nat, r: Replica, w: nat, log': Log)
    requires RepCore(h, i, r) && w >= r.view
    requires w > r.lastNormal || (w == r.lastNormal && h.cfg.Primary(w) != i)
    ensures BoxesOk(h, i, w, log', r.out, r.disk, r.waiting, r.outbox)
  {
    hide CatchingUpOk, RecordedOk, EarlyOk, AnswersOk, WritesOk, ExecutedOk, ExecutionOk, AckedOk, AcksOk, LeadsOk, ImagesOk,
      StatusOk, BoxOk;
    assert ReportsUpTo(Said(h, r), i, r.view);
    assert ReportsUpTo(r.outbox, i, w);
    if w > r.lastNormal {
      BoxLater(h, i, r.outbox, r.lastNormal, r.log, w, log');
    } else {
      BoxSameView(h, i, r.outbox, w, r.log, log');
    }
  }

  lemma NotLeader(h: History, i: nat, mem: Image, q: Rounds, early: set<Message>)
    requires !Leads(h, i, mem)
    ensures LeaderOk(h, i, mem, q, early)
  {
  }

  /** Leaving for view `v`, by a view change or to catch up with it. */
  function Leave(r: Replica, v: nat, catchingUp: Option<nat>): Replica {
    ClearViewChange(r).(view := v, status := ViewChange, catchingUp := catchingUp)
  }

  lemma LeaveOk(h: History, i: nat, r: Replica, v: nat, catchingUp: Option<nat>)
    requires RepOk(h, i, r) && v >= r.view && v > r.lastNormal
    requires catchingUp.Some? ==> OnRecord(h, v) && catchingUp.value == h.cfg.Primary(v)
    ensures RepOk(h, i, Leave(r, v, catchingUp))
  {
    hide BoxesOk, EarlyOk, LeaderOk, AnswersOk, WritesOk, ExecutionOk, ExecutedOk, Holds, Certain, LeadsOk, AcksOk, AckedOk, ReportsOk;
    NotLeader(h, i, Snapshot(Leave(r, v, catchingUp)), Leave(r, v, catchingUp).q, r.early);
    CertainLess(h, i, r.view, r.commit, v, r.commit);
    LeaveParts(h, i, r, v);
  }

  /** What of a replica does not depend on the view it is in. */
  lemma LeaveParts(h: History, i: nat, r: Replica, v: nat)
    requires RepCore(h, i, r) && v >= r.view && v > r.lastNormal
    ensures var mem := Snapshot(r).(view := v);
            && ExecutionOk(h, i, mem, r.changed, r.durable, Latest(r.out, r.disk), r.disk, |r.sm|)
            && LeadsOk(h, i, mem, r.disk) && AckedOk(h, i, mem, r.acked)
            && AcksOk(h.msgs, i, mem, r.out, r.disk, r.waiting, r.outbox)
            && ReportsOk(h, i, v, r.out, r.disk, r.waiting, r.outbox)
  {
    hide BoxesOk, EarlyOk, AnswersOk, WritesOk, ExecutedOk, Certain, RecordedOk, CatchingUpOk, ReportsOk, ImagesOk, StatusOk;
    LaterReports(h, i, r.view, v, r.out, r.disk, r.waiting, r.outbox);
  }

  lemma LaterReports(h: History, i: nat, view: nat, v: nat, out: Option<Image>, disk: Image, waiting: set<Message>, outbox: set<Message>)
    requires ReportsOk(h, i, view, out, disk, waiting, outbox) && view <= v
    ensures ReportsOk(h, i, v, out, disk, waiting, outbox)
  {
    hide ReportsKeepAcks, OwnReportsKeep;
  }

  lemma BeginViewChangeOk(h: History, i: nat, r: Replica, v: nat)
    requires RepOk(h, i, r) && v >= r.view && v > r.lastNormal
    ensures RepOk(h, i, BeginViewChange(i, r, v))
  {
    LeaveOk(h, i, r, v, None);
    hide RepOk;
    RepInRange(h, i, r);
    SendOk(h, i, Leave(r, v, None), StartViewChange(v, i));
  }

  lemma RepInRange(h: History, i: nat, r: Replica)
    requires RepOk(h, i, r)
    ensures i < h.cfg.n
  {
  }

  // ---------------------------------------------------------------------------
  // Entering a view that has started

  /** Enters view `v` with `log`, committed up to `commit`. */
  function Enter(r: Replica, v: nat, log: Log, commit: nat): Replica {
    EnterNormal(r.(view := v, log := log, commit := commit, changed := MarkChanged(r.changed, r.commit + 1)))
  }

  lemma EnterOk(h: History, i: nat, r: Replica, v: nat, log: Log, commit: nat, sm: Log, flushed: Log)
    requires RepOk(h, i, r) && v >= r.view && v > r.lastNormal && h.cfg.Primary(v) != i && OnRecord(h, v)
    requires Holds(h, v, log, commit) && r.commit <= commit && Certain(h, i, v, commit)
    requires r.commit <= |r.log| && Same(log, r.log, 0, r.commit) && StateHeld(h, i, r, commit, log, sm, flushed)
    ensures RepOk(h, i, Enter(r.(sm := sm, flushed := flushed), v, log, commit))
  {
    hide EarlyOk, LeaderOk, AnswersOk, WritesOk, ExecutionOk, ReportsKeepAcks, OwnReportsKeep, MsgOk, ReportKeeps, BoxesOk, Certain, Holds;
    BoxesChange(h, i, r, v, log);
    var latest := Latest(r.out, r.disk);
    var r' := Enter(r.(sm := sm, flushed := flushed), v, log, commit);
    WritesChange(|r.flushed|, r.log, r.changed, r.durable, latest.log, r.disk.log, log, r.commit + 1, |flushed|);
    MarkedFromOne(|r.flushed|, r.log, r.changed, r.durable, latest.log, r.disk.log);
    ExecutionChange(h, i, Snapshot(r), r.changed, r.durable, latest, r.disk, |r.sm|, Snapshot(r'), r.commit + 1);
    ExecutionMoves(h, i, Snapshot(r'), r'.changed, r.durable, latest, r.disk, |r.sm|, |sm|);
    NotLeader(h, i, Snapshot(r'), r'.q, r.early);
  }

  /** What the replica invariant says of memory alone. */
  ghost predicate Facts(h: History, i: nat, r: Replica) {
    && i < h.cfg.n && !r.failed
    && ImageOk(h, i, Snapshot(r))
    && r.disk.lastNormal <= r.lastNormal <= r.view
    && |r.sm| <= r.commit <= |r.log|
    && r.sm <= r.log
    && i < |h.reached| && h.reached[i] <= r.view
    && (r.status == ViewChange <==> r.lastNormal < r.view)
    && (h.cfg.Primary(r.view) == i && r.lastNormal == r.view ==> r.view in h.views && r.log == h.views[r.view].log)
    && (r.status == StateTransfer ==> h.cfg.Primary(r.view) != i)
    && (r.catchingUp.Some? ==> OnRecord(h, r.view) && r.catchingUp.value == h.cfg.Primary(r.view))
    && (h.cfg.Primary(r.lastNormal) != i ==> OnRecord(h, r.lastNormal))
    && (forall v: nat {:trigger OnRecord(h, v)} :: OnRecord(h, v) && h.cfg.Primary(v) == i ==> v <= r.lastNormal)
    && (r.changed.Some? ==> r.changed.value >= 1)
  }

  lemma RepFacts(h: History, i: nat, r: Replica)
    requires RepOk(h, i, r)
    ensures Facts(h, i, r)
    ensures WritesOk(|r.flushed|, r.log, r.changed, r.durable, Latest(r.out, r.disk).log, r.disk.log)
  {
    hide BoxesOk, AcksOk, ReportsOk, RecordedOk, EarlyOk, LeaderOk, AnswersOk, ExecutionOk, AckedOk;
  }

  /** `start` and `entries` are a stretch of the log of view `v` that reaches past its start. */
  ghost predicate Stretch(h: History, v: nat, start: nat, entries: Log) {
    && v in h.views
    && start + |entries| <= |h.views[v].log|
    && entries == h.views[v].log[start..start + |entries|]
    && |h.views[v].init| <= start + |entries|
  }

  /** What a replica's log is once it took a stretch of the log of view `v`. */
  function Taken(log: Log, keep: nat, start: nat, entries: Log): Log
    requires keep <= |log| && start <= keep
  {
    log[..keep] + Drop(entries, keep - start)
  }

  /** What was committed, with a stretch of the view's log after it. */
  lemma TakenHolds(h: History, v: nat, log: Log, keep: nat, commit: nat, start: nat, entries: Log)
    requires Stretch(h, v, start, entries) && start <= keep <= |log| && commit <= keep
    requires Same(log, h.completed, 0, commit) && Same(log, h.views[v].log, commit, keep)
    ensures Holds(h, v, Taken(log, keep, start, entries), commit)
    ensures Same(Taken(log, keep, start, entries), log, 0, keep)
  {
    TakenEntries(log, keep, start, entries, h.views[v].log);
  }

  lemma TakenEntries(log: Log, keep: nat, start: nat, entries: Log, view: Log)
    requires start <= keep <= |log| && start + |entries| <= |view| && entries == view[start..start + |entries|]
    ensures var log' := Taken(log, keep, start, entries);
            && |log'| == Max(keep, start + |entries|)
            && Same(log', log, 0, keep) && Same(log', view, keep, |log'|)
  {
    var log' := Taken(log, keep, start, entries);
    forall x | keep <= x < |log'|
      ensures x < |view| && log'[x] == view[x]
    {
      assert log'[x] == entries[x - start] == view[x];
    }
  }

  /** Installing and entering, as one: the ops executed meanwhile were committed before. */
  lemma InstallOk(h: History, i: nat, r: Replica, v: nat, start: nat, entries: Log, c: nat)
    requires HistoryOk(h) && RepOk(h, i, r) && v >= r.view && v > r.lastNormal && h.cfg.Primary(v) != i && OnRecord(h, v)
    requires Stretch(h, v, start, entries) && start <= r.commit
    requires c <= start + |entries| && ChosenBy(h, v, c)
    ensures RepOk(h, i, EnterNormal(CommitUpTo(h.cfg, i, Merge(r, start, entries).(view := v), c)))
  {
    hide RepOk, WritesOk, HistoryOk, EnterNormal, CommitUpTo, Merge, ChosenBy, Certain, Stretch, Holds, Same, Facts, StateHeld, Enter, Execute;
    RepFacts(h, i, r);
    FactsHold(h, i, r);
    var log := InstallPlan(h, i, r, v, start, entries, c);
    var to := InstalledUpTo(r, v, log, c);
    InstalledWithin(r, v, log, c);
    ExecuteOk(h, i, r, to);
    var r1, commit := Execute(r, to), Max(r.commit, c);
    CertainMax(h, i, r.view, r.commit, v, c);
    SameState(h, i, r1, commit, log);
    EnterOk(h, i, r1, v, log, commit, r1.sm, r1.flushed);
    assert r1.(sm := r1.sm, flushed := r1.flushed) == r1;
  }

  lemma InstallPlan(h: History, i: nat, r: Replica, v: nat, start: nat, entries: Log, c: nat) returns (log: Log)
    requires HistoryOk(h) && Facts(h, i, r) && h.cfg.Primary(v) != i
    requires Stretch(h, v, start, entries) && start <= r.commit
    requires c <= start + |entries| && ChosenBy(h, v, c)
    ensures r.commit <= |r.log| && r.commit <= |log| && Same(log, r.log, 0, r.commit) && log[..r.commit] == r.log[..r.commit]
    ensures Holds(h, v, log, Max(r.commit, c)) && Max(r.commit, c) <= |log|
    ensures EnterNormal(CommitUpTo(h.cfg, i, Merge(r, start, entries).(view := v), c))
         == Enter(Execute(r, InstalledUpTo(r, v, log, c)), v, log, Max(r.commit, c))
  {
    hide HistoryOk, EnterNormal, CommitUpTo, ChosenBy, Certain, Holds, Execute, Enter;
    FactsHold(h, i, r);
    log := Taken(r.log, r.commit, start, entries);
    TakenHolds(h, v, r.log, r.commit, r.commit, start, entries);
    SameStart(log, r.log, r.commit);
    InstalledShape(h.cfg, i, r, v, log, c);
    DecidedOk(h, v, c);
    HoldsMax(h, v, log, r.commit, c);
  }

  /** Installing executes what was committed before, and is held by the disk. */
  lemma InstalledWithin(r: Replica, v: nat, log: Log, c: nat)
    requires WritesOk(|r.flushed|, r.log, r.changed, r.durable, Latest(r.out, r.disk).log, r.disk.log)
    requires r.commit <= |r.log| && r.commit <= |log| && Same(log, r.log, 0, r.commit)
    ensures InstalledUpTo(r, v, log, c) <= r.commit && InstalledUpTo(r, v, log, c) <= DurableOp(r)
  {
    WritesChange(|r.flushed|, r.log, r.changed, r.durable, Latest(r.out, r.disk).log, r.disk.log, log, r.commit + 1, |r.flushed|);
  }

  lemma EmptyStretch(a: Log, b: Log, n: nat)
    ensures Same(a, b, n, n)
  {
  }

  lemma FactsHold(h: History, i: nat, r: Replica)
    requires Facts(h, i, r)
    ensures Holds(h, r.lastNormal, r.log, r.commit) && Same(r.log, h.completed, 0, r.commit) && r.commit <= |h.completed|
    ensures Certain(h, i, r.view, r.commit)
  {
  }

  lemma HoldsMax(h: History, v: nat, log: Log, c: nat, c': nat)
    requires Holds(h, v, log, c) && Decided(h, v, c') && c' <= |log|
    ensures Holds(h, v, log, Max(c, c'))
  {
    if c <= c' {
      HoldsMore(h, v, log, c, c');
    }
  }

  lemma CertainMax(h: History, i: nat, v: nat, n: nat, w: nat, c: nat)
    requires Certain(h, i, v, n) && v <= w && ChosenBy(h, w, c)
    ensures Certain(h, i, w, Max(n, c))
  {
    CertainLess(h, i, v, n, w, n);
    ChosenByCertain(h, i, w, c);
  }

  /** Up to where installing executes. */
  function InstalledUpTo(r: Replica, v: nat, log: Log, c: nat): int {
    if c <= r.commit then 0 else Min(r.commit, DurableUpTo(r.durable, MarkChanged(r.changed, r.commit + 1)))
  }

  lemma InstalledShape(cfg: Config, i: nat, r: Replica, v: nat, log: Log, c: nat)
    requires (cfg.Primary(v) != i || r.status != Normal) && r.commit <= |r.log| && r.commit <= |log| && log[..r.commit] == r.log[..r.commit]
    requires r.changed.Some? ==> r.changed.value >= 1
    ensures var r1 := r.(view := v, log := log, changed := MarkChanged(r.changed, r.commit + 1));
            EnterNormal(CommitUpTo(cfg, i, r1, c)) == Enter(Execute(r, InstalledUpTo(r, v, log, c)), v, log, Max(r.commit, c))
  {
    var to := InstalledUpTo(r, v, log, c);
    if c > r.commit {
      assert to == Min(c, DurableUpTo(r.durable, MarkChanged(r.changed, r.commit + 1)));
      if to > |r.sm| {
        SameSlice(log, r.log, r.commit, |r.sm|, to);
      }
    }
  }
}
