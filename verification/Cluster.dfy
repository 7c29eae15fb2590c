/** The cluster: replicas with their disks, a network that loses, repeats and reorders what is
    sent, and every step any of them can take.

    A message that leaves a replica stays in `msgs` for good, so delivery is the choice of any
    member at any time.  A write is out from `Take` to `Land`; a crash lands it whole or not at
    all.  `views`, `starts`, `confirms`, `reached` and `completed` are history: no step depends on them
    but for what a waiting query remembers. */
module Cluster {
  import opened Types
  import opened Quorums
  import opened Protocol

  /** A view that has started: the log it started with, the log its primary has come to, how it was
      started, how many starts came before it, and whether it is on record: its primary will not
      forget it. */
  datatype View = View(init: Log, log: Log, origin: Origin, born: nat, est: bool)

  datatype History = History(
    cfg: Config,
    views: map<nat, View>,
    // How many times a view was started, the first view's start included.
    starts: nat,
    msgs: set<Message>,
    confirms: set<Message>,
    // A view each replica does not go back behind: its disk's, or one its memory came to.
    reached: seq<nat>,
    // Every op some replica has ever committed, in order.
    completed: Log)

  datatype System = System(reps: seq<Replica>, h: History)

  datatype Input =
    | ClientEntry(entry: LogEntry)
    | Query(id: nat)
    | Receive(m: Message)
    | Timeout
    | IdlePrimary(due: nat)
    | IdleTransfer
    | IdleViewChange

  datatype Event =
    | Act(i: nat, input: Input)
    // Of what replica `i` may send before its write, `sent` leaves; its owner holds the rest back.
    | Drain(i: nat, sent: set<Message>)
    | Take(i: nat)
    | Land(i: nat, skip: bool)
    | Flush(i: nat)
    | Crash(i: nat, landed: bool)
    // Replica `i` fetched the checkpoint of op `k` that message `m` goes on from.
    | Restore(i: nat, m: Message, k: nat)

  function Initial(cfg: Config): System {
    System(seq(cfg.n, _ => New(cfg)),
           History(cfg, map[0 := View([], [], NoOrigin, 0, true)], 1, {}, {}, Zeros(cfg.n), []))
  }

  /** Whether `m` is sent to replica `i`. */
  predicate SentTo(cfg: Config, i: nat, m: Message) {
    match m
    case PrepareOk(v, _, j) => i == cfg.Primary(v) && i != j
    case ConfirmViewOk(v, _, j) => i == cfg.Primary(v) && i != j
    case DoViewChange(v, j, _) => i == cfg.Primary(v) && i != j
    case GetState(_, to, _, _) => i == to
    case NewState(_, to, _, _, _, _) => i == to
    case StartViewChange(_, j) => i != j
    case Prepare(v, _, _, _) => i != cfg.Primary(v)
    case Commit(v, _) => i != cfg.Primary(v)
    case StartView(v, _, _) => i != cfg.Primary(v)
    case ConfirmView(v, _) => i != cfg.Primary(v)
  }

  function OnMessage(cfg: Config, i: nat, r: Replica, m: Message): Replica {
    match m
    case Prepare(v, op, e, c) => OnPrepare(cfg, i, r, v, op, e, c)
    case PrepareOk(v, op, j) => OnPrepareOk(cfg, i, r, v, op, j)
    case Commit(v, c) => OnCommit(cfg, i, r, v, c)
    case GetState(j, _, v, op) => OnGetState(i, r, j, v, op)
    case NewState(_, _, v, s, es, c) => OnNewState(cfg, i, r, v, s, es, c)
    case StartViewChange(v, j) => OnStartViewChange(cfg, i, r, v, j)
    case DoViewChange(v, j, d) => OnDoViewChange(cfg, i, r, v, j, d)
    case StartView(v, log, c) => OnStartView(cfg, i, r, v, log, c)
    case ConfirmView(v, round) => OnConfirmView(cfg, i, r, v, round)
    case ConfirmViewOk(v, round, j) => OnConfirmViewOk(cfg, i, r, v, round, j)
  }

  /** The replicas that are past view `v` for good. */
  function Moved(h: History, v: nat): set<nat> {
    set j: nat | j < |h.reached| && h.reached[j] > v
  }

  function OnInput(cfg: Config, i: nat, r: Replica, input: Input, h: History): Replica {
    match input
    case ClientEntry(e) => OnRequest(cfg, i, r, e)
    case Query(id) => OnQuery(cfg, i, r, id, h.completed, Moved(h, r.view))
    case Receive(m) => OnMessage(cfg, i, r, m)
    case Timeout => OnTimeout(cfg, i, r)
    case IdlePrimary(due) => OnIdlePrimary(cfg, i, r, due)
    case IdleTransfer => OnIdleTransfer(cfg, i, r)
    case IdleViewChange => OnIdleViewChange(cfg, i, r)
  }

  /** What the primary of a view sends as such: it goes by the view being the primary's own. */
  predicate FromPrimary(m: Message) {
    m.Prepare? || m.Commit? || m.NewState? || m.ConfirmView?
  }

  /** The gate: what the primary of a view sends early leaves once its disk was normal in the view. */
  predicate Gate(cfg: Config, r: Replica, sent: set<Message>) {
    cfg.gated ==> forall m :: m in sent && FromPrimary(m) ==> m.view <= r.disk.lastNormal
  }

  predicate Enabled(s: System, e: Event) {
    e.i < |s.reps| &&
    match e
    case Act(i, input) => input.Receive? ==> input.m in s.h.msgs && SentTo(s.h.cfg, i, input.m)
    case Drain(i, sent) => sent <= s.reps[i].early && Gate(s.h.cfg, s.reps[i], sent)
    case Take(i) => s.reps[i].out.None?
    // A write that changed nothing but the commit number may skip the disk.
    case Land(i, skip) => s.reps[i].out.Some? &&
                          (skip ==> s.reps[i].out.value.(commit := s.reps[i].disk.commit) == s.reps[i].disk)
    case Flush(i) => true
    case Crash(i, landed) => s.h.cfg.crashes && (landed ==> s.reps[i].out.Some?)
    case Restore(i, m, k) => m in s.h.msgs && SentTo(s.h.cfg, i, m) && Fetches(s.reps[i], m, k) &&
                             (s.h.cfg.guarded ==> s.reps[i].disk.view >= m.view)
  }

  /** Whether a replica takes a `NewState` by the checkpoint of op `k`: that is past its log in a
      state transfer, and past what it has committed as it catches up with a view. */
  predicate Fetches(r: Replica, m: Message, k: nat) {
    && m.NewState? && m.view == r.view && k <= m.commit && k <= m.start + |m.entries|
    && (|| (r.status == StateTransfer && m.start <= |r.log| < k)
        || (r.status == ViewChange && r.catchingUp.Some? && m.start <= r.commit < k && r.commit <= |r.log|))
  }

  /** The ops a checkpoint of op `k` covers: what the replica's log and the message's stretch start with. */
  function CheckpointOps(r: Replica, m: Message, k: nat): Log
    requires Fetches(r, m, k)
  {
    (r.log[..m.start] + m.entries)[..k]
  }

  /** The replica once the checkpoint is its state, durably, and the ops it covers its log. */
  function Fetched(r: Replica, m: Message, k: nat): Replica
    requires Fetches(r, m, k)
  {
    var ops := CheckpointOps(r, m, k);
    r.(log := ops, changed := MarkChanged(r.changed, r.commit + 1), commit := k, sm := ops, flushed := ops)
  }

  /** It goes on with the message that named the checkpoint. */
  function Restored(cfg: Config, i: nat, r: Replica, m: Message, k: nat): Replica
    requires Fetches(r, m, k)
  {
    InstallState(cfg, i, Fetched(r, m, k), m.start, m.entries, m.commit)
  }

  /** Whether replica `i` starts its view as it goes from `r` to `r'`. */
  predicate Starts(cfg: Config, i: nat, r: Replica, r': Replica, views: map<nat, View>) {
    cfg.Primary(r'.view) == i && r'.lastNormal == r'.view && !(r.lastNormal == r'.view && r'.view in views)
  }

  /** The history of views after replica `i` went from `r` to `r'`: the primary of a view grows
      its log, and one that enters a view starts it. */
  function GrowViews(cfg: Config, i: nat, r: Replica, r': Replica, views: map<nat, View>, starts: nat): map<nat, View> {
    var v := r'.view;
    if cfg.Primary(v) != i || r'.lastNormal != v then views
    else if Starts(cfg, i, r, r', views) then views[v := View(r'.log, r'.log, r'.origin, starts, !cfg.gated)]
    else views[v := views[v].(log := r'.log)]
  }

  /** Replica `i` has come to `view`. */
  function Raise(reached: seq<nat>, i: nat, view: nat): seq<nat> {
    if i < |reached| && reached[i] < view then reached[i := view] else reached
  }

  /** Without the gate a view is on record as it starts. */
  function Reach(cfg: Config, i: nat, r': Replica, views: map<nat, View>, reached: seq<nat>): seq<nat> {
    if !cfg.gated && cfg.Primary(r'.view) == i && r'.lastNormal == r'.view && r'.view !in views
    then Raise(reached, i, r'.view) else reached
  }

  /** What replica `i` confirmed in a step. */
  function Confirmations(r: Replica): set<Message> {
    set m | m in r.early && m.ConfirmViewOk?
  }

  function Complete(completed: Log, r: Replica): Log {
    if |completed| < r.commit <= |r.log| then r.log[..r.commit] else completed
  }

  /** The views of which replica `i` is primary are on record up to where its disk was normal. */
  function Establish(cfg: Config, i: nat, disk: Image, views: map<nat, View>): map<nat, View> {
    map v | v in views :: if cfg.Primary(v) == i && v <= disk.lastNormal then views[v].(est := true) else views[v]
  }

  /** A crash forgets the views replica `i` started in memory only. */
  function Forget(cfg: Config, i: nat, disk: Image, views: map<nat, View>): map<nat, View> {
    map v | v in views && !(cfg.Primary(v) == i && v > disk.lastNormal) :: views[v]
  }

  /** The primary's own acknowledgement of what its landed write holds. */
  function OwnAck(cfg: Config, i: nat, r: Replica): set<Message>
    requires r.out.Some?
  {
    var op := DurableOp(r.(durable := |r.out.value.log|));
    if r.status == Normal && cfg.Primary(r.view) == i && r.out.value.lastNormal == r.view && op >= 0
    then {PrepareOk(r.view, op, i)} else {}
  }

  /** The history once replica `i` went from `r` to `r'` on an input. */
  function Acted(h: History, i: nat, r: Replica, r': Replica): History {
    h.(views := GrowViews(h.cfg, i, r, r', h.views, h.starts),
       starts := if Starts(h.cfg, i, r, r', h.views) then h.starts + 1 else h.starts,
       confirms := h.confirms + Confirmations(r'),
       reached := Reach(h.cfg, i, r', h.views, h.reached), completed := Complete(h.completed, r'))
  }

  function Step(s: System, e: Event): System
    requires Enabled(s, e)
  {
    var h := s.h;
    var cfg := h.cfg;
    var r := s.reps[e.i];
    match e
    case Act(i, input) =>
      var r' := OnInput(cfg, i, r, input, h);
      System(s.reps[i := r'], Acted(h, i, r, r'))
    case Drain(i, sent) =>
      System(s.reps[i := r.(early := r.early - sent, q := r.q.(unsent := false))], h.(msgs := h.msgs + sent))
    case Take(i) =>
      System(s.reps[i := TakeWrite(r)], h)
    case Land(i, skip) =>
      var r' := Persisted(cfg, i, r, skip);
      System(s.reps[i := r'],
             h.(views := Establish(cfg, i, r'.disk, h.views), msgs := h.msgs + r.waiting + OwnAck(cfg, i, r),
                reached := Raise(h.reached, i, r'.disk.view),
                completed := Complete(h.completed, r')))
    case Flush(i) =>
      System(s.reps[i := r.(flushed := r.sm)], h)
    case Restore(i, m, k) =>
      var r' := Restored(cfg, i, r, m, k);
      System(s.reps[i := r'], Acted(h, i, r, r'))
    case Crash(i, landed) =>
      var disk := if landed then r.out.value else r.disk;
      var r' := Restart(cfg, i, disk, r.flushed);
      System(s.reps[i := r'],
             h.(views := Forget(cfg, i, disk, Establish(cfg, i, disk, h.views)),
                reached := Raise(h.reached, i, disk.view),
                completed := Complete(h.completed, r')))
  }

  /** A run: a sequence of states, each the initial one or a step from the one before. */
  ghost predicate IsRun(cfg: Config, run: seq<System>) {
    |run| > 0 && run[0] == Initial(cfg) &&
    forall k :: 0 <= k < |run| - 1 ==> IsStep(run[k], run[k + 1])
  }

  ghost predicate IsStep(s: System, s': System) {
    exists e :: Enabled(s, e) && s' == Step(s, e)
  }
}
