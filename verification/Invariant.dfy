/** What every reachable state of the cluster satisfies. */
module Invariant {
  import opened Types
  import opened Quorums
  import opened Protocol
  import opened Cluster

  // ---------------------------------------------------------------------------
  // What a quorum has acknowledged

  /** Replica `j` has acknowledged the ops up to `n` in view `v`. */
  ghost predicate Acked(h: History, v: nat, n: nat, j: nat) {
    exists m: nat :: m >= n && PrepareOk(v, m, j) in h.msgs
  }

  ghost predicate AckQuorum(h: History, v: nat, n: nat, q: set<nat>) {
    h.cfg.IsQuorum(q) && forall j :: j in q ==> Acked(h, v, n, j)
  }

  /** A quorum has acknowledged the ops up to `n` of view `v`. */
  ghost predicate Chosen(h: History, v: nat, n: nat) {
    v in h.views && n <= |h.views[v].log| && exists q :: AckQuorum(h, v, n, q)
  }

  /** Some replica has committed `n` ops, chosen in view `v` or an earlier one. */
  ghost predicate ChosenBy(h: History, v: nat, n: int) {
    n <= |h.completed| && (n <= 0 || exists u: nat :: u <= v && Chosen(h, u, n))
  }

  /** All replicas but `i` are at view `u` or past it for good. */
  ghost predicate Past(h: History, i: nat, u: nat) {
    forall j: nat {:trigger h.reached[j]} :: j < |h.reached| && j != i ==> u <= h.reached[j]
  }

  /** View `u` chose `n` ops, and is no later than `v`, or one that replica `i` fell behind alone. */
  ghost predicate ChosenFor(h: History, i: nat, v: nat, u: nat, n: nat) {
    Chosen(h, u, n) && (u <= v || (h.cfg.Strays() && Past(h, i, u)))
  }

  /** Replica `i`, whose view is `v`, may take `n` ops for committed. */
  ghost predicate Certain(h: History, i: nat, v: nat, n: int) {
    n <= |h.completed| && (n <= 0 || exists u: nat :: ChosenFor(h, i, v, u, n))
  }

  // ---------------------------------------------------------------------------
  // Logs

  /** `log` is what the primary of view `v` announces. */
  ghost predicate InView(h: History, v: nat, log: Log) {
    v in h.views && |h.views[v].init| <= |log| && log <= h.views[v].log
  }

  /** `log`, committed up to `c`, is what a replica last normal in view `v` can hold: what completed
      up to there, and the view's entries after that. */
  ghost predicate Holds(h: History, v: nat, log: Log, c: nat) {
    && v in h.views
    && |h.views[v].init| <= |log|
    && c <= |log|
    && Same(log, h.completed, 0, c)
    && Same(log, h.views[v].log, c, |log|)
  }

  /** View `v` is on its primary's disk, or its primary is `i`. */
  ghost predicate Known(h: History, i: nat, v: nat) {
    v in h.views && (h.views[v].est || h.cfg.Primary(v) == i)
  }

  /** What memory, the write that is out, and the disk of replica `i` all satisfy. */
  ghost predicate ImageOk(h: History, i: nat, a: Image) {
    && a.lastNormal <= a.view
    && Known(h, i, a.lastNormal)
    && Holds(h, a.lastNormal, a.log, a.commit)
    && Certain(h, i, a.view, a.commit)
  }

  /** An acknowledgement of op `m` in view `v` is kept by a log last normal in view `w`. */
  ghost predicate Keeps(w: nat, log: Log, v: nat, m: nat) {
    v <= w && (v == w ==> m <= |log|)
  }

  ghost predicate ReportOk(h: History, i: nat, v: nat, d: Report) {
    && d.lastNormal < v
    && ImageOk(h, i, Image(v, d.lastNormal, d.commit, d.log))
  }

  // ---------------------------------------------------------------------------
  // Messages

  /** The primary of view `v` may take `n` ops for committed. */
  ghost predicate Announced(h: History, v: nat, n: nat) { Certain(h, h.cfg.Primary(v), v, n) }

  /** What a message that replica `i` sent or is about to send says is so. */
  ghost predicate MsgOk(h: History, i: nat, m: Message) {
    match m
    case Prepare(v, op, e, c) =>
      Known(h, i, v) && 1 <= op <= |h.views[v].log| && h.views[v].log[op - 1] == e && Announced(h, v, c)
    case PrepareOk(v, _, j) =>
      j == i < h.cfg.n && v in h.views && h.views[v].est
    case Commit(v, c) =>
      Known(h, i, v) && Announced(h, v, c)
    case GetState(j, to, v, _) =>
      v in h.views && h.views[v].est && to == h.cfg.Primary(v) != j
    case NewState(_, to, v, start, entries, c) =>
      && Known(h, i, v)
      && to != h.cfg.Primary(v)
      && start + |entries| <= |h.views[v].log|
      && entries == h.views[v].log[start..start + |entries|]
      && |h.views[v].init| <= start + |entries|
      && c <= start + |entries|
      && Announced(h, v, c)
    case StartViewChange(_, j) => j == i < h.cfg.n
    case DoViewChange(v, j, d) =>
      j == i < h.cfg.n && ReportOk(h, i, v, d)
    case StartView(v, log, c) =>
      Known(h, i, v) && InView(h, v, log) && c <= |log| && Announced(h, v, c)
    case ConfirmView(v, _) => Known(h, i, v)
    case ConfirmViewOk(_, _, j) => j == i < h.cfg.n && m in h.confirms
  }

  /** A message that has left: the views it speaks of are on their primaries' disks. */
  ghost predicate SentOk(h: History, m: Message) {
    MsgOk(h, Sender(m), m) &&
    (m.StartViewChange? || m.ConfirmViewOk? || (m.DoViewChange? && OnRecord(h, m.report.lastNormal)) ||
     (!m.DoViewChange? && OnRecord(h, m.view)))
  }

  ghost predicate OnRecord(h: History, v: nat) { v in h.views && h.views[v].est }

  /** The sender, where the message names one; the rest come from the view's primary. */
  function Sender(m: Message): nat {
    match m
    case PrepareOk(_, _, j) => j
    case StartViewChange(_, j) => j
    case DoViewChange(_, j, _) => j
    case ConfirmViewOk(_, _, j) => j
    case _ => 0
  }

  // ---------------------------------------------------------------------------
  // The history

  /** The first `c` ops of `log` were chosen by a view that started before start number `born`. */
  ghost predicate Settled(h: History, log: Log, c: nat, born: nat) {
    c == 0 || exists u: nat {:trigger Chosen(h, u, c)} ::
      Chosen(h, u, c) && h.views[u].born < born && Same(log, h.views[u].log, 0, c)
  }

  /** Chosen by a view before `v`, where no replica strays. */
  ghost predicate Earlier(h: History, v: nat, c: nat) {
    !h.cfg.Strays() && v > 0 ==> ChosenBy(h, v - 1, c)
  }

  /** A report view `v` started from, `j`'s, ranks no higher than the one chosen. */
  ghost predicate ReportedBy(h: History, v: nat, born: nat, j: nat, d: Report, best: Report) {
    && ReportOk(h, j, v, d)
    && Ranks(best, d)
    && (j != h.cfg.Primary(v) ==> DoViewChange(v, j, d) in h.msgs)
    && h.views[d.lastNormal].born < born
    && Settled(h, d.log, d.commit, born)
    && Earlier(h, v, d.commit)
  }

  /** View `v` started from a quorum of reports, with the one that ranks highest. */
  ghost predicate OriginReports(h: History, v: nat, born: nat, o: Origin) {
    && h.cfg.IsQuorum(o.reports.Keys)
    && o.best in o.reports
    && (forall j {:trigger o.reports[j]} :: j in o.reports ==> ReportedBy(h, v, born, j, o.reports[j], o.reports[o.best]))
  }

  /** It started with what its primary had committed, then with the log chosen. */
  ghost predicate OriginLog(h: History, v: nat, born: nat, init: Log, o: Origin, best: Log) {
    && |init| == Max(o.kept, |best|)
    && Settled(h, init, o.kept, born)
    && Earlier(h, v, o.kept)
    && Same(init, best, o.kept, |init|)
  }

  ghost predicate OriginOk(h: History, v: nat, born: nat, init: Log, o: Origin) {
    OriginReports(h, v, born, o) && OriginLog(h, v, born, init, o, o.reports[o.best].log)
  }

  ghost predicate ViewOk(h: History, v: nat)
    requires v in h.views
  {
    && h.views[v].init <= h.views[v].log
    && h.views[v].born < h.starts
    && (v == 0 ==> h.views[v].init == [])
    && (v > 0 ==> OriginOk(h, v, h.views[v].born, h.views[v].init, h.views[v].origin))
  }

  ghost predicate ViewsOk(h: History) {
    0 in h.views && forall v {:trigger ViewOk(h, v)} :: v in h.views ==> ViewOk(h, v)
  }

  ghost predicate MsgsOk(h: History) {
    forall m {:trigger SentOk(h, m)} :: m in h.msgs ==> SentOk(h, m)
  }

  /** A report keeps what its sender has acknowledged in earlier views. */
  ghost predicate ReportKeeps(acks: set<Message>, j: nat, w: nat, d: Report) {
    forall v: nat, m: nat :: PrepareOk(v, m, j) in acks && v < w ==> Keeps(d.lastNormal, d.log, v, m)
  }

  ghost predicate ReportsKeep(h: History) {
    && (forall w: nat, j: nat, d :: DoViewChange(w, j, d) in h.msgs ==> ReportKeeps(h.msgs, j, w, d))
    && (forall w :: w in h.views && h.cfg.Primary(w) in h.views[w].origin.reports ==>
        ReportKeeps(h.msgs, h.cfg.Primary(w), w, h.views[w].origin.reports[h.cfg.Primary(w)]))
  }

  /** Everything ever committed was chosen. */
  ghost predicate CompletedOk(h: History) {
    h.completed == [] || exists u: nat :: Chosen(h, u, |h.completed|) && h.completed <= h.views[u].log
  }

  ghost predicate ConfirmsOk(h: History) {
    forall v: nat, round: nat, j: nat :: ConfirmViewOk(v, round, j) in h.confirms ==> ConfirmView(v, round) in h.msgs
  }

  /** No replica goes back behind a view it sent a report for, or one it leads that is on record. */
  ghost predicate ReachedOk(h: History) {
    && |h.reached| == h.cfg.n
    && (forall w: nat, j: nat, d :: DoViewChange(w, j, d) in h.msgs && j < |h.reached| ==> w <= h.reached[j])
    && (forall w: nat {:trigger OnRecord(h, w)} :: OnRecord(h, w) && h.cfg.Primary(w) < |h.reached| ==>
        w <= h.reached[h.cfg.Primary(w)])
  }

  ghost predicate HistoryOk(h: History) {
    && h.cfg.Sound()
    && ReachedOk(h)
    && ViewsOk(h)
    && MsgsOk(h)
    && ReportsKeep(h)
    && CompletedOk(h)
    && ConfirmsOk(h)
  }

  // ---------------------------------------------------------------------------
  // A replica.  Each part names the fields it is about.

  /** The write that is out, or the disk: what the next write starts from. */
  function Latest(out: Option<Image>, disk: Image): Image {
    match out case Some(a) => a case None => disk
  }

  /** Memory, the write out and the disk follow each other through views. */
  ghost predicate ImagesOk(h: History, i: nat, mem: Image, out: Option<Image>, disk: Image) {
    && ImageOk(h, i, mem)
    && ImageOk(h, i, Latest(out, disk))
    && ImageOk(h, i, disk)
    && disk.view <= Latest(out, disk).view <= mem.view
    && disk.lastNormal <= Latest(out, disk).lastNormal <= mem.lastNormal
    && disk.commit <= Latest(out, disk).commit <= mem.commit
  }

  ghost predicate StatusOk(h: History, i: nat, status: Status, mem: Image, disk: Image) {
    && i < h.cfg.n && i < |h.reached|
    && h.reached[i] <= mem.view && (h.cfg.gated ==> h.reached[i] == disk.view)
    && (status == ViewChange <==> mem.lastNormal < mem.view)
    && (status == StateTransfer ==> h.cfg.Primary(mem.view) != i)
  }

  ghost predicate CatchingUpOk(h: History, status: Status, view: nat, catchingUp: Option<nat>) {
    catchingUp.Some? ==> status == ViewChange && OnRecord(h, view) && catchingUp.value == h.cfg.Primary(view)
  }

  /** The views a replica leads are those its memory went through, on record once on disk, and
      it holds the log of the one it leads now. */
  ghost predicate LeadsOk(h: History, i: nat, mem: Image, disk: Image) {
    && (h.cfg.Primary(mem.view) == i && mem.lastNormal == mem.view && mem.view in h.views ==>
        mem.log == h.views[mem.view].log)
    && (forall v {:trigger h.views[v]} :: v in h.views && h.cfg.Primary(v) == i ==>
        v <= mem.lastNormal && (h.views[v].est <==> !h.cfg.gated || v <= disk.lastNormal))
  }

  /** What replica `i` acknowledged in `acks` is kept by `a`. */
  ghost predicate KeepsAcks(acks: set<Message>, i: nat, a: Image) {
    forall v: nat, m: nat :: PrepareOk(v, m, i) in acks ==> Keeps(a.lastNormal, a.log, v, m)
  }

  /** What this replica acknowledged is kept: by its disk what has left, by the write out what
      waits for it too, by memory what waits for the next write as well. */
  ghost predicate AcksOk(msgs: set<Message>, i: nat, mem: Image, out: Option<Image>, disk: Image,
                         waiting: set<Message>, outbox: set<Message>) {
    && KeepsAcks(msgs, i, disk)
    && KeepsAcks(msgs + waiting, i, Latest(out, disk))
    && KeepsAcks(msgs + waiting + outbox, i, mem)
  }

  /** The votes and reports of replica `i` are for views up to `view`. */
  ghost predicate ReportsUpTo(msgs: set<Message>, i: nat, view: nat) {
    && (forall w: nat, d :: DoViewChange(w, i, d) in msgs ==> w <= view)
    && (forall w: nat :: StartViewChange(w, i) in msgs ==> w <= view)
  }

  /** Every report replica `i` sent keeps every acknowledgement it sent. */
  ghost predicate ReportsKeepAcks(msgs: set<Message>, i: nat) {
    forall w: nat, d :: DoViewChange(w, i, d) in msgs ==> ReportKeeps(msgs, i, w, d)
  }

  /** So do the reports it took itself, as the primary of the views it started. */
  ghost predicate OwnReportsKeep(h: History, msgs: set<Message>, i: nat) {
    forall w {:trigger h.views[w]} :: w in h.views && h.cfg.Primary(w) == i && i in h.views[w].origin.reports ==>
      ReportKeeps(msgs, i, w, h.views[w].origin.reports[i])
  }

  ghost predicate ReportsOk(h: History, i: nat, view: nat, out: Option<Image>, disk: Image,
                            waiting: set<Message>, outbox: set<Message>) {
    && ReportsUpTo(h.msgs, i, disk.view)
    && ReportsUpTo(h.msgs + waiting, i, Latest(out, disk).view)
    && ReportsUpTo(h.msgs + waiting + outbox, i, view)
    && ReportsKeepAcks(h.msgs + waiting + outbox, i)
    && OwnReportsKeep(h, h.msgs + waiting + outbox, i)
  }

  ghost predicate EarlyOk(h: History, i: nat, early: set<Message>) {
    forall m {:trigger MsgOk(h, i, m)} {:trigger m in early} :: m in early ==>
      && MsgOk(h, i, m) && !m.PrepareOk? && !m.DoViewChange? && !m.StartView? && !m.StartViewChange?
      && (m.ConfirmView? ==> h.cfg.Primary(m.view) == i)
  }

  /** What waits for a write is backed by it: a view it sends was started with the log it sends, or
      gave way to a later one, and so with a report. */
  ghost predicate BoxOk(h: History, i: nat, box: set<Message>, lastNormal: nat, log: Log) {
    forall m {:trigger MsgOk(h, i, m)} {:trigger m in box} :: m in box ==>
      && MsgOk(h, i, m)
      && (m.PrepareOk? || m.StartViewChange? || m.DoViewChange? || m.StartView?)
      && (m.StartView? ==> h.cfg.Primary(m.view) == i && (m.view < lastNormal || (m.view == lastNormal && m.log <= log)))
      && (m.DoViewChange? ==> m.view <= lastNormal || (m.report.lastNormal == lastNormal && m.report.log <= log))
  }

  ghost predicate BoxesOk(h: History, i: nat, lastNormal: nat, log: Log, out: Option<Image>, disk: Image,
                          waiting: set<Message>, outbox: set<Message>) {
    && BoxOk(h, i, waiting, Latest(out, disk).lastNormal, Latest(out, disk).log)
    && BoxOk(h, i, outbox, lastNormal, log)
    && (out.None? ==> waiting == {})
  }

  ghost predicate RecordedOk(h: History, i: nat, status: Status, view: nat, acks: set<Message>, dvcFrom: map<nat, Report>) {
    && (dvcFrom != map[] ==> status == ViewChange && h.cfg.Primary(view) == i)
    && (forall j {:trigger dvcFrom[j]} :: j in dvcFrom ==>
        && j < h.cfg.n
        && ReportOk(h, j, view, dvcFrom[j])
        && (j != i ==> DoViewChange(view, j, dvcFrom[j]) in h.msgs)
        && (j == i ==> ReportKeeps(acks, i, view, dvcFrom[j])))
  }

  ghost predicate AckedOk(h: History, i: nat, mem: Image, acked: seq<nat>) {
    && |acked| == h.cfg.n
    && (h.cfg.Primary(mem.view) == i && mem.lastNormal == mem.view ==>
        forall j :: 0 <= j < |acked| && acked[j] > 0 ==>
          acked[j] <= |mem.log| && Acked(h, mem.view, acked[j], j))
  }

  /** Up to where the write out holds the log as memory does. */
  function WrittenUpTo(changed: Option<nat>, latest: Log): int {
    match changed case None => |latest| case Some(from) => from - 1
  }

  /** What the write pipeline keeps, past what the state machine has flushed: the changes since the
      last write are marked, and what the disk is taken to hold it holds, and so does the write that
      is out. */
  ghost predicate WritesOk(flushed: nat, log: Log, changed: Option<nat>, durable: nat, latest: Log, disk: Log) {
    && (changed.None? ==> |latest| <= |log| <= Max(|latest|, flushed))
    && (changed.Some? ==> 1 <= changed.value <= |log| + 1)
    && Same(latest, log, flushed, WrittenUpTo(changed, latest))
    && Same(disk, latest, flushed, durable)
  }

  /** What executed is flushed, or held by the disk with and without the write that is out. */
  ghost predicate ExecutedOk(commit: nat, log: Log, latest: Log, disk: Log, sm: Log, flushed: Log) {
    && |sm| <= commit
    && sm <= log && flushed <= sm
    && Same(sm, latest, |flushed|, |sm|) && Same(sm, disk, |flushed|, |sm|)
  }

  /** Where replicas crash, what executed is certain in the view a crash goes back to: entries taken
      over with a later view execute only once a write records that view. */
  ghost predicate ExecutionOk(h: History, i: nat, mem: Image, changed: Option<nat>, durable: nat, latest: Image, disk: Image, sm: nat) {
    h.cfg.crashes ==>
      && Certain(h, i, disk.view, sm)
      && (disk.lastNormal == mem.lastNormal ==> Certain(h, i, disk.view, mem.commit))
      && (disk.lastNormal < mem.lastNormal ==> Certain(h, i, disk.view, DurableUpTo(durable, changed)))
      && (latest.lastNormal == mem.lastNormal ==> Certain(h, i, latest.view, mem.commit))
      && (latest.lastNormal < mem.lastNormal ==> changed.Some? && Certain(h, i, latest.view, changed.value - 1))
  }

  /** The report a replica recorded for itself says no more is committed than it knows now. */
  ghost predicate OwnReportOk(i: nat, dvcFrom: map<nat, Report>, commit: nat) {
    i in dvcFrom ==> dvcFrom[i].commit <= commit
  }

  // ---------------------------------------------------------------------------
  // Queries

  /** A query remembers what had completed: the ops it waits for hold that, or a quorum had gone
      past the view and confirms none of its later rounds. */
  ghost predicate QueryOk(h: History, v: nat, q: WaitingQuery) {
    && v in h.views
    && q.round > 0
    && q.op <= |h.views[v].log|
    && (forall j :: j in q.moved ==> j < |h.reached| && h.reached[j] > v)
    && (forall j: nat, round: nat :: j in q.moved && ConfirmViewOk(v, round, j) in h.confirms ==> round < q.round)
    && ((|q.floor| <= q.op && q.floor <= h.views[v].log) || h.cfg.IsQuorum(q.moved))
  }

  ghost predicate QueriesOk(h: History, v: nat, queries: seq<WaitingQuery>) {
    forall k {:trigger queries[k]} :: 0 <= k < |queries| ==> QueryOk(h, v, queries[k])
  }

  ghost predicate Leads(h: History, i: nat, mem: Image) {
    h.cfg.Primary(mem.view) == i && mem.lastNormal == mem.view && mem.view in h.views
  }

  /** While a replica leads its view, no one has completed more in it or before it than it knows of. */
  ghost predicate KnowsCompleted(h: History, view: nat, commit: nat) {
    view in h.views &&
    (|h.completed| <= Max(commit, |h.views[view].init|) || exists w :: w > view && OnRecord(h, w))
  }

  /** The rounds a primary has started, sent and had confirmed. */
  ghost predicate RoundsOk(h: History, i: nat, view: nat, q: Rounds, early: set<Message>) {
    && q.done <= q.round
    && (q.unsent ==> q.round > 0)
    && (forall j: nat :: j < |q.confirmed| ==> q.confirmed[j] <= q.round)
    && (forall j: nat :: j < |q.confirmed| && j != i && q.confirmed[j] > 0 ==>
        ConfirmViewOk(view, q.confirmed[j], j) in h.confirms)
    && (q.done > 0 ==> h.cfg.IsQuorum(Reaching(q.confirmed, q.done)))
    && (forall x: nat :: ConfirmView(view, x) in h.msgs ==> x <= q.round)
    && (forall x: nat :: ConfirmView(view, x) in early ==> x <= q.round)
    && (forall x: nat :: q.unsent && ConfirmView(view, x) in h.msgs ==> x < q.round)
  }

  /** An answer read everything that had completed when its query arrived, and nothing that had
      not when it left. */
  ghost predicate AnswersOk(completed: Log, answers: seq<Answer>) {
    forall k {:trigger answers[k]} :: 0 <= k < |answers| ==> answers[k].floor <= answers[k].state <= completed
  }

  /** What a replica that leads its view keeps of queries. */
  ghost predicate LeaderOk(h: History, i: nat, mem: Image, q: Rounds, early: set<Message>) {
    Leads(h, i, mem) ==>
      && q.viewStart == |h.views[mem.view].init|
      && RoundsOk(h, i, mem.view, q, early)
      && QueriesOk(h, mem.view, q.queries)
      && KnowsCompleted(h, mem.view, mem.commit)
  }

  // ---------------------------------------------------------------------------
  // The invariant

  /** Every acknowledgement and report of this replica, sent or to be sent. */
  function Said(h: History, r: Replica): set<Message> { h.msgs + r.waiting + r.outbox }

  ghost predicate RepCore(h: History, i: nat, r: Replica) {
    && !r.failed
    && ImagesOk(h, i, Snapshot(r), r.out, r.disk)
    && StatusOk(h, i, r.status, Snapshot(r), r.disk)
    && CatchingUpOk(h, r.status, r.view, r.catchingUp)
    && LeadsOk(h, i, Snapshot(r), r.disk)
    && AcksOk(h.msgs, i, Snapshot(r), r.out, r.disk, r.waiting, r.outbox)
    && ReportsOk(h, i, r.view, r.out, r.disk, r.waiting, r.outbox)
    && EarlyOk(h, i, r.early)
    && BoxesOk(h, i, r.lastNormal, r.log, r.out, r.disk, r.waiting, r.outbox)
    && RecordedOk(h, i, r.status, r.view, Said(h, r), r.dvcFrom)
    && AckedOk(h, i, Snapshot(r), r.acked)
    && OwnReportOk(i, r.dvcFrom, r.commit)
    && WritesOk(|r.flushed|, r.log, r.changed, r.durable, Latest(r.out, r.disk).log, r.disk.log)
    && ExecutedOk(r.commit, r.log, Latest(r.out, r.disk).log, r.disk.log, r.sm, r.flushed)
    && ExecutionOk(h, i, Snapshot(r), r.changed, r.durable, Latest(r.out, r.disk), r.disk, |r.sm|)
    && |r.q.confirmed| == h.cfg.n
    && AnswersOk(h.completed, r.answers)
  }

  ghost predicate RepOk(h: History, i: nat, r: Replica) {
    RepCore(h, i, r) && LeaderOk(h, i, Snapshot(r), r.q, r.early)
  }

  ghost predicate Inv(s: System) {
    && HistoryOk(s.h)
    && |s.reps| == s.h.cfg.n
    && forall i {:trigger s.reps[i]} :: 0 <= i < |s.reps| ==> RepOk(s.h, i, s.reps[i])
  }
}
