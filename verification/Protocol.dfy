/** One replica: its state, and its handlers as functions from state to state.  The code's
    assertions set `failed` instead of panicking. */
module Protocol {
  import opened Types
  import opened Quorums

  datatype Status = Normal | StateTransfer | ViewChange

  /** What a replica reports in a `DoViewChange`. */
  datatype Report = Report(lastNormal: nat, log: Log, commit: nat)

  datatype Message =
    | Prepare(view: nat, op: nat, entry: LogEntry, commit: nat)
    | PrepareOk(view: nat, op: nat, from: nat)
    | Commit(view: nat, commit: nat)
    | GetState(from: nat, to: nat, view: nat, op: nat)
    | NewState(from: nat, to: nat, view: nat, start: nat, entries: Log, commit: nat)
    | StartViewChange(view: nat, from: nat)
    | DoViewChange(view: nat, from: nat, report: Report)
    | StartView(view: nat, log: Log, commit: nat)
    | ConfirmView(view: nat, round: nat)
    | ConfirmViewOk(view: nat, round: nat, from: nat)

  /** What a write leaves on disk. */
  datatype Image = Image(view: nat, lastNormal: nat, commit: nat, log: Log)

  /** A query waiting on the primary.  `floor` and `moved` are history: every op that had
      completed when the query arrived, and the replicas whose disk was past the view. */
  datatype WaitingQuery = WaitingQuery(id: nat, op: nat, round: nat, floor: Log, moved: set<nat>)

  /** An answered query: what had completed when it arrived, and the state it read. */
  datatype Answer = Answer(id: nat, floor: Log, state: Log)

  /** The primary's queries and its rounds of view confirmations: the op number its view started
      with, the queries waiting, the last round started and the last confirmed by a quorum, the
      last each replica confirmed, and whether the last round has yet to leave. */
  datatype Rounds = Rounds(viewStart: nat, queries: seq<WaitingQuery>, round: nat, done: nat,
                           confirmed: seq<nat>, unsent: bool)

  /** History of a view's start: the reports it was started from, the one whose log was chosen,
      and how much of its own log the new primary kept. */
  datatype Origin = Origin(reports: map<nat, Report>, best: nat, kept: nat)

  datatype Replica = Replica(
    status: Status,
    view: nat,
    lastNormal: nat,
    commit: nat,
    log: Log,
    // The state machine, as the sequence of entries it executed, and its last flush.
    sm: Log,
    flushed: Log,
    // The write pipeline.
    changed: Option<nat>,
    durable: nat,
    out: Option<Image>,
    disk: Image,
    // The primary's bookkeeping.
    acked: seq<nat>,
    q: Rounds,
    answers: seq<Answer>,
    // The view change.
    svcFrom: set<nat>,
    dvcSent: bool,
    dvcFrom: map<nat, Report>,
    catchingUp: Option<nat>,
    origin: Origin,
    // Outboxes.
    early: set<Message>,
    outbox: set<Message>,
    waiting: set<Message>,
    failed: bool)

  const EmptyImage := Image(0, 0, 0, [])
  const NoOrigin := Origin(map[], 0, 0)

  function Zeros(n: nat): seq<nat> { seq(n, _ => 0) }

  function New(cfg: Config): Replica {
    Replica(Normal, 0, 0, 0, [], [], [], None, 0, None, EmptyImage,
            Zeros(cfg.n), Rounds(0, [], 0, 0, Zeros(cfg.n), false), [],
            {}, false, map[], None, NoOrigin, {}, {}, {}, false)
  }

  // ---------------------------------------------------------------------------
  // Log, commit, execution

  function Snapshot(r: Replica): Image { Image(r.view, r.lastNormal, r.commit, r.log) }

  function MarkChanged(changed: Option<nat>, op: nat): Option<nat> {
    Some(match changed case None => op case Some(from) => Min(from, op))
  }

  /** The op number up to which the handed-back writes hold the log as memory does. */
  function DurableOp(r: Replica): int { DurableUpTo(r.durable, r.changed) }

  function DurableUpTo(durable: nat, changed: Option<nat>): int {
    match changed
    case None => durable
    case Some(from) => Min(durable, from - 1)
  }

  function Append(r: Replica, entry: LogEntry): Replica {
    r.(log := r.log + [entry], changed := MarkChanged(r.changed, |r.log| + 1))
  }

  /** Replaces the log after `start` with `entries`, but for what is committed. */
  function Merge(r: Replica, start: nat, entries: Log): Replica {
    var keep := Max(start, r.commit);
    if keep > |r.log| then r.(failed := true)
    else
      r.(log := r.log[..keep] + Drop(entries, keep - start),
         changed := MarkChanged(r.changed, keep + 1))
  }

  /** Answers the waiting queries at the front whose round is confirmed and whose op executed. */
  function ExecuteQueries(cfg: Config, i: nat, r: Replica): Replica
    decreases |r.q.queries|
  {
    if cfg.Primary(r.view) != i || r.status != Normal || r.q.queries == [] then r
    else if r.q.queries[0].round > r.q.done || r.q.queries[0].op > |r.sm| then r
    else ExecuteQueries(cfg, i, r.(q := r.q.(queries := r.q.queries[1..]),
                                   answers := r.answers + [Answer(r.q.queries[0].id, r.q.queries[0].floor, r.sm)]))
  }

  /** Executes the committed entries up to `op`, which the disk holds. */
  function ApplyCommitted(cfg: Config, i: nat, r: Replica, op: int): Replica {
    var to := Min(r.commit, op);
    var r1 := if to <= |r.sm| then r
              else if to > |r.log| then r.(failed := true)
              else r.(sm := r.sm + r.log[|r.sm|..to]);
    ExecuteQueries(cfg, i, r1)
  }

  function CommitUpTo(cfg: Config, i: nat, r: Replica, commit: nat): Replica {
    if commit <= r.commit then r
    else ApplyCommitted(cfg, i, r.(commit := commit), DurableOp(r))
  }

  // ---------------------------------------------------------------------------
  // Sending

  function SendEarly(r: Replica, m: Message): Replica { r.(early := r.early + {m}) }

  function Send(r: Replica, m: Message): Replica { r.(outbox := r.outbox + {m}) }

  /** Acknowledges the log; an acknowledgement of this view still to be sent gives way. */
  function SendPrepareOk(i: nat, r: Replica): Replica {
    r.(outbox := (set m | m in r.outbox && !(m.PrepareOk? && m.view == r.view))
                 + {PrepareOk(r.view, |r.log|, i)})
  }

  // ---------------------------------------------------------------------------
  // Normal operation

  /** The primary appends an entry a client asked for. */
  function OnRequest(cfg: Config, i: nat, r: Replica, entry: LogEntry): Replica {
    if cfg.Primary(r.view) != i || r.status != Normal then r
    else
      var r1 := Append(r, entry);
      SendEarly(r1, Prepare(r1.view, |r1.log|, entry, r1.commit))
  }

  function ClearViewChange(r: Replica): Replica {
    r.(svcFrom := {}, dvcSent := false, dvcFrom := map[], catchingUp := None,
       q := Rounds(r.q.viewStart, [], 0, 0, Zeros(|r.q.confirmed|), false))
  }

  /** Learns that `view` has started, and asks its primary for the log from the commit number on. */
  function CatchUp(cfg: Config, i: nat, r: Replica, view: nat): Replica {
    if r.view == view && r.catchingUp == Some(cfg.Primary(view)) then r
    else
      var r1 := ClearViewChange(r).(view := view, status := ViewChange, catchingUp := Some(cfg.Primary(view)));
      SendEarly(r1, GetState(i, cfg.Primary(view), view, r1.commit))
  }

  function StateTransferFrom(cfg: Config, i: nat, r: Replica): Replica {
    SendEarly(r.(status := StateTransfer), GetState(i, cfg.Primary(r.view), r.view, |r.log|))
  }

  /** Whether a `Prepare` or `Commit` of `view` is processed as a normal-case message. */
  predicate Accepts(cfg: Config, i: nat, r: Replica, view: nat) {
    view == r.view && r.status == Normal && cfg.Primary(view) != i
  }

  /** What one that is not does: catch up with a view that started without this replica. */
  function Decline(cfg: Config, i: nat, r: Replica, view: nat): Replica {
    if view > r.view || (view == r.view && r.status == ViewChange) then CatchUp(cfg, i, r, view) else r
  }

  function OnPrepare(cfg: Config, i: nat, r: Replica, view: nat, op: nat, entry: LogEntry, commit: nat): Replica {
    if !Accepts(cfg, i, r, view) then Decline(cfg, i, r, view)
    else if op > |r.log| + 1 then StateTransferFrom(cfg, i, r)
    else
      var r1 := if op == |r.log| + 1 then Append(r, entry) else r;
      SendPrepareOk(i, CommitUpTo(cfg, i, r1, Min(commit, |r1.log|)))
  }

  function OnCommit(cfg: Config, i: nat, r: Replica, view: nat, commit: nat): Replica {
    if !Accepts(cfg, i, r, view) then Decline(cfg, i, r, view)
    else if commit > |r.log| then StateTransferFrom(cfg, i, r)
    else CommitUpTo(cfg, i, r, commit)
  }

  /** Counts an acknowledgement, and commits what a quorum holds. */
  function RegisterAck(cfg: Config, i: nat, r: Replica, from: nat, op: int): Replica {
    var op := Min(op, |r.log|);
    if from >= |r.acked| || op <= r.acked[from] then r
    else
      var r1 := r.(acked := r.acked[from := op]);
      CommitUpTo(cfg, i, r1, QuorumMark(cfg, r1.acked, |r1.acked|))
  }

  function OnPrepareOk(cfg: Config, i: nat, r: Replica, view: nat, op: nat, from: nat): Replica {
    if view != r.view || cfg.Primary(r.view) != i || r.status != Normal then r
    else RegisterAck(cfg, i, r, from, op)
  }

  // ---------------------------------------------------------------------------
  // State transfer

  function OnGetState(i: nat, r: Replica, from: nat, view: nat, op: nat): Replica {
    if view != r.view || op > |r.log| then r
    else if r.status == Normal || (r.status == ViewChange && r.dvcSent && r.catchingUp == None) then
      SendEarly(r, NewState(i, from, view, op, r.log[op..], r.commit))
    else r
  }

  /** Goes on from a segment the log takes: a state transfer is over, and a replica catching up with
      a view enters it, or starts it as its primary. */
  function InstallState(cfg: Config, i: nat, r: Replica, start: nat, entries: Log, commit: nat): Replica {
    if r.status == StateTransfer then
      SendPrepareOk(i, CommitUpTo(cfg, i, Merge(r, start, entries), commit).(status := Normal))
    else
      var r1 := Merge(r, start, entries).(catchingUp := None);
      if cfg.Primary(r.view) == i && |r1.dvcFrom| >= cfg.Quorum() then TryStartView(cfg, i, r1)
      else SendPrepareOk(i, EnterNormal(CommitUpTo(cfg, i, r1, commit)))
  }

  function OnNewState(cfg: Config, i: nat, r: Replica, view: nat, start: nat, entries: Log, commit: nat): Replica {
    if view != r.view then r
    else if r.status == StateTransfer then
      if start + |entries| <= |r.log| || start > |r.log| then r else InstallState(cfg, i, r, start, entries, commit)
    else if r.status == ViewChange && r.catchingUp.Some? then
      if start > r.commit then r else InstallState(cfg, i, r, start, entries, commit)
    else r
  }

  // ---------------------------------------------------------------------------
  // View change

  function EnterNormal(r: Replica): Replica {
    var r1 := ClearViewChange(r);
    r1.(status := Normal, lastNormal := r.view, acked := Zeros(|r.acked|), q := r1.q.(viewStart := |r.log|))
  }

  function BeginViewChange(i: nat, r: Replica, view: nat): Replica {
    Send(ClearViewChange(r).(view := view, status := ViewChange), StartViewChange(view, i))
  }

  function ReportOf(r: Replica): Report { Report(r.lastNormal, r.log, r.commit) }

  /** Whether report `a` ranks at least as high as `b`: a later normal view, or as late a one and no shorter a log. */
  predicate Ranks(a: Report, b: Report) {
    a.lastNormal > b.lastNormal || (a.lastNormal == b.lastNormal && |a.log| >= |b.log|)
  }

  /** The highest id below `k` whose report ranks highest among those below `k`. */
  function Best(reports: map<nat, Report>, k: nat): (best: Option<nat>)
    ensures best.None? <==> forall j :: j in reports ==> j >= k
    ensures best.Some? ==> best.value in reports && best.value < k
    ensures best.Some? ==> forall j :: j in reports && j < k ==> Ranks(reports[best.value], reports[j])
  {
    if k == 0 then None
    else
      var rest := Best(reports, k - 1);
      if k - 1 in reports && (rest.None? || Ranks(reports[k - 1], reports[rest.value])) then Some(k - 1) else rest
  }

  /** The greatest commit number among the reports of ids below `k`. */
  function MaxCommit(reports: map<nat, Report>, k: nat): (c: nat)
    ensures forall j :: j in reports && j < k ==> reports[j].commit <= c
    ensures c == 0 || exists j :: j in reports && j < k && reports[j].commit == c
  {
    if k == 0 then 0
    else
      var rest := MaxCommit(reports, k - 1);
      if k - 1 in reports then Max(rest, reports[k - 1].commit) else rest
  }

  /** Starts the view from the reported log that ranks highest. */
  function TryStartView(cfg: Config, i: nat, r: Replica): Replica {
    var best := Best(r.dvcFrom, cfg.n);
    if best.None? then r
    else
      var kept := r.commit;
      var r1 := Merge(r, 0, r.dvcFrom[best.value].log);
      var r2 := CommitUpTo(cfg, i, r1, MaxCommit(r.dvcFrom, cfg.n));
      var r3 := EnterNormal(r2).(origin := Origin(r.dvcFrom, best.value, kept));
      Send(r3, StartView(r3.view, r3.log, r3.commit))
  }

  function RecordReport(cfg: Config, i: nat, r: Replica, from: nat, report: Report): Replica {
    var r1 := r.(dvcFrom := r.dvcFrom[from := report]);
    if |r1.dvcFrom| < cfg.Quorum() then r1 else TryStartView(cfg, i, r1)
  }

  /** Sends this replica's report to the new primary, or records it if that is this replica. */
  function SendReport(cfg: Config, i: nat, r: Replica): Replica {
    if cfg.Primary(r.view) == i then RecordReport(cfg, i, r, i, ReportOf(r))
    else Send(r, DoViewChange(r.view, i, ReportOf(r)))
  }

  function MaybeSendReport(cfg: Config, i: nat, r: Replica): Replica {
    if r.status != ViewChange || r.catchingUp.Some? || r.dvcSent || |r.svcFrom| < cfg.n / 2 then r
    else SendReport(cfg, i, r.(dvcSent := true))
  }

  function OnStartViewChange(cfg: Config, i: nat, r: Replica, view: nat, from: nat): Replica {
    if view < r.view then r
    else if view == r.view && r.status != ViewChange then
      if r.status == Normal && cfg.Primary(view) == i then Send(r, StartView(view, r.log, r.commit)) else r
    else
      var r1 := if view > r.view then BeginViewChange(i, r, view) else r;
      MaybeSendReport(cfg, i, r1.(svcFrom := r1.svcFrom + {from}))
  }

  function OnDoViewChange(cfg: Config, i: nat, r: Replica, view: nat, from: nat, report: Report): Replica {
    if view < r.view || cfg.Primary(view) != i then r
    else if view == r.view && r.status == Normal then Send(r, StartView(view, r.log, r.commit))
    else
      var r1 := if view > r.view then BeginViewChange(i, r, view) else r;
      RecordReport(cfg, i, r1, from, report)
  }

  function OnStartView(cfg: Config, i: nat, r: Replica, view: nat, log: Log, commit: nat): Replica {
    if view < r.view || (view == r.view && r.status != ViewChange) then r
    else
      SendPrepareOk(i, EnterNormal(CommitUpTo(cfg, i, Merge(r, 0, log).(view := view), commit)))
  }

  // ---------------------------------------------------------------------------
  // Queries

  /** The most rounds of view confirmations out at a time. */
  const RoundsOut := 32

  function StartRound(i: nat, r: Replica): Replica {
    var round := r.q.round + 1;
    var confirmed := if i < |r.q.confirmed| then r.q.confirmed[i := round] else r.q.confirmed;
    SendEarly(r.(q := r.q.(round := round, unsent := true, confirmed := confirmed)), ConfirmView(r.view, round))
  }

  function OnQuery(cfg: Config, i: nat, r: Replica, id: nat, floor: Log, moved: set<nat>): Replica {
    if cfg.Primary(r.view) != i || r.status != Normal || (exists q :: q in r.q.queries && q.id == id) then r
    else
      var room := r.q.round - r.q.done < RoundsOut;
      var r1 := if !r.q.unsent && room then StartRound(i, r) else r;
      var round := if r.q.unsent || room then r1.q.round else r1.q.round + 1;
      var query := WaitingQuery(id, Max(r1.commit, r1.q.viewStart), round, floor, moved);
      r1.(q := r1.q.(queries := r1.q.queries + [query]))
  }

  function OnConfirmView(cfg: Config, i: nat, r: Replica, view: nat, round: nat): Replica {
    if view != r.view || cfg.Primary(view) == i then r else SendEarly(r, ConfirmViewOk(view, round, i))
  }

  function OnConfirmViewOk(cfg: Config, i: nat, r: Replica, view: nat, round: nat, from: nat): Replica {
    if view != r.view || cfg.Primary(view) != i || r.status != Normal || from >= |r.q.confirmed|
       || round > r.q.round || round <= r.q.confirmed[from] then r
    else
      var r1 := r.(q := r.q.(confirmed := r.q.confirmed[from := round]));
      var done := QuorumMark(cfg, r1.q.confirmed, |r1.q.confirmed|);
      if done <= r1.q.done then r1 else RoundDone(cfg, i, r1, done)
  }

  /** A quorum has confirmed the rounds up to `done`: the next starts if a query waits for it,
      and the queries that may go are answered. */
  function RoundDone(cfg: Config, i: nat, r: Replica, done: nat): Replica {
    var r1 := r.(q := r.q.(done := done));
    var last := |r1.q.queries| - 1;
    var r2 := if last >= 0 && r1.q.queries[last].round > r1.q.round then StartRound(i, r1) else r1;
    ExecuteQueries(cfg, i, r2)
  }

  // ---------------------------------------------------------------------------
  // Idle periods

  function OnTimeout(cfg: Config, i: nat, r: Replica): Replica {
    if r.status == Normal && cfg.Primary(r.view) == i then r else BeginViewChange(i, r, r.view + 1)
  }

  /** What an idle primary sends again: its commit number, an uncommitted entry, its last round. */
  function OnIdlePrimary(cfg: Config, i: nat, r: Replica, due: nat): Replica {
    if r.status != Normal || cfg.Primary(r.view) != i then r
    else
      var r1 := SendEarly(r, Commit(r.view, r.commit));
      var r2 := if r.commit < due <= |r.log| then SendEarly(r1, Prepare(r.view, due, r.log[due - 1], r.commit)) else r1;
      if r.q.round > r.q.done then SendEarly(r2, ConfirmView(r.view, r.q.round)) else r2
  }

  function OnIdleTransfer(cfg: Config, i: nat, r: Replica): Replica {
    if r.status != StateTransfer then r else StateTransferFrom(cfg, i, r)
  }

  function OnIdleViewChange(cfg: Config, i: nat, r: Replica): Replica {
    if r.status != ViewChange then r
    else
      var r1 := if r.catchingUp.Some? then SendEarly(r, GetState(i, r.catchingUp.value, r.view, r.commit)) else r;
      var r2 := if r.catchingUp.None? || r.dvcSent then Send(r1, StartViewChange(r.view, i)) else r1;
      if r.dvcSent && r.catchingUp.None? then SendReport(cfg, i, r2) else r2
  }

  // ---------------------------------------------------------------------------
  // Writes, crash and restart

  /** The write of what changed is taken: a snapshot goes out, and what waits for it waits. */
  function TakeWrite(r: Replica): Replica
    requires r.out.None?
  {
    r.(durable := Max(0, DurableOp(r)), changed := None, out := Some(Snapshot(r)),
       waiting := r.outbox, outbox := {})
  }

  /** The write that is out is handed back.  The owner skips the disk if `skip`. */
  function Persisted(cfg: Config, i: nat, r: Replica, skip: bool): Replica
    requires r.out.Some?
  {
    var out := r.out.value;
    var r1 := r.(out := None, disk := if skip then r.disk else out, durable := |out.log|, waiting := {});
    var r2 := if r1.status == Normal && cfg.Primary(r1.view) == i && out.lastNormal == r1.view
              then RegisterAck(cfg, i, r1, i, DurableOp(r1)) else r1;
    ApplyCommitted(cfg, i, r2, DurableOp(r1))
  }

  /** The replica rebuilt from its disk and the state machine's last flush. */
  function Restart(cfg: Config, i: nat, disk: Image, flushed: Log): Replica {
    var commit := Max(disk.commit, |flushed|);
    var log := if |flushed| > disk.commit then flushed + Drop(disk.log, |flushed|) else disk.log;
    var r := New(cfg).(view := disk.view, lastNormal := disk.lastNormal, commit := commit, log := log,
                       sm := flushed, flushed := flushed, durable := |log|, disk := disk,
                       failed := commit > |log|);
    var r1 := ApplyCommitted(cfg, i, r, |log|);
    if disk.lastNormal < disk.view then BeginViewChange(i, r1, disk.view)
    else if cfg.Primary(disk.view) == i then BeginViewChange(i, r1, disk.view + 1)
    else r1
  }
}
