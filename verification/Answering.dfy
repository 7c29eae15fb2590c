/** No query is dropped: while a replica leads a view, the queries it accepted are answered or wait, each
    once, in the order in which they came. */
module Answering {
  import opened Types
  import opened Quorums
  import opened Protocol
  import opened Cluster
  import opened Steps
  import opened Running
  import opened Agreement
  import opened Linearizability

  predicate InCharge(cfg: Config, i: nat, r: Replica) { cfg.Primary(r.view) == i && r.status == Normal }

  /** Answers to the queries, read from state `sm`. */
  function AnswersTo(queries: seq<WaitingQuery>, sm: Log): seq<Answer> {
    seq(|queries|, k requires 0 <= k < |queries| => Answer(queries[k].id, queries[k].floor, sm))
  }

  /** Of the queries waiting the first `k` got their answers, from the state as it is then. */
  ghost predicate Serves(queries: seq<WaitingQuery>, k: nat, r: Replica, r': Replica) {
    && k <= |queries| && r'.q.queries == queries[k..] && r'.answers == r.answers + AnswersTo(queries[..k], r'.sm)
  }

  /** The queries waiting in `r`, with `queries` after them, are answered or still wait in `r'`. */
  ghost predicate Served(r: Replica, queries: seq<WaitingQuery>, r': Replica) {
    exists k: nat :: Serves(r.q.queries + queries, k, r, r')
  }

  /** The replica stops leading its view, or serves the queries in turn. */
  ghost predicate Attends(cfg: Config, i: nat, r: Replica, queries: seq<WaitingQuery>, r': Replica) {
    InCharge(cfg, i, r') && r'.view == r.view ==> Served(r, queries, r')
  }

  lemma SameServed(r: Replica, r': Replica)
    requires r'.q.queries == r.q.queries && r'.answers == r.answers
    ensures Served(r, [], r')
  {
    assert r.q.queries + [] == r.q.queries;
    assert Serves(r.q.queries + [], 0, r, r');
  }

  /** What is served in two goes with one state is served. */
  lemma ServedTwice(r: Replica, r1: Replica, r2: Replica)
    requires Served(r, [], r1) && Served(r1, [], r2) && (r1.answers == r.answers || r1.sm == r2.sm)
    ensures Served(r, [], r2)
  {
    assert r.q.queries + [] == r.q.queries && r1.q.queries + [] == r1.q.queries;
    var j: nat :| Serves(r.q.queries, j, r, r1);
    var k: nat :| Serves(r1.q.queries, k, r1, r2);
    ServesTwice(r.q.queries, j, k, r, r1, r2);
  }

  lemma ServesTwice(queries: seq<WaitingQuery>, j: nat, k: nat, r: Replica, r1: Replica, r2: Replica)
    requires Serves(queries, j, r, r1) && Serves(r1.q.queries, k, r1, r2) && (r1.answers == r.answers || r1.sm == r2.sm)
    ensures Serves(queries, j + k, r, r2)
  {
    assert |r1.answers| == |r.answers| + j;
    SplitTwice(queries, j, k);
    AnswersJoin(queries[..j], queries[j..][..k], r2.sm);
    hide AnswersTo;
    if j == 0 {
      assert r1.answers == r.answers;
      assert queries[..0] + queries[0..][..k] == queries[0..][..k];
    }
  }

  lemma SplitTwice(queries: seq<WaitingQuery>, j: nat, k: nat)
    requires j + k <= |queries|
    ensures queries[j..][k..] == queries[j + k..] && queries[..j] + queries[j..][..k] == queries[..j + k]
  {
  }

  lemma AnswersJoin(a: seq<WaitingQuery>, b: seq<WaitingQuery>, sm: Log)
    ensures AnswersTo(a + b, sm) == AnswersTo(a, sm) + AnswersTo(b, sm)
  {
  }

  // ---------------------------------------------------------------------------
  // Executing

  /** The ready queries at the front, and only they, are answered. */
  lemma {:induction false} ExecuteServes(cfg: Config, i: nat, r: Replica)
    ensures var r' := ExecuteQueries(cfg, i, r);
            && Served(r, [], r') && r'.sm == r.sm && r'.view == r.view && r'.status == r.status
    decreases |r.q.queries|
  {
    hide Served;
    if cfg.Primary(r.view) == i && r.status == Normal && r.q.queries != []
       && r.q.queries[0].round <= r.q.done && r.q.queries[0].op <= |r.sm| {
      var r1 := r.(q := r.q.(queries := r.q.queries[1..]),
                   answers := r.answers + [Answer(r.q.queries[0].id, r.q.queries[0].floor, r.sm)]);
      FirstServed(r, r1);
      ExecuteServes(cfg, i, r1);
      ServedTwice(r, r1, ExecuteQueries(cfg, i, r1));
    } else {
      SameServed(r, r);
    }
  }

  lemma FirstServed(r: Replica, r1: Replica)
    requires r.q.queries != [] && r1.q.queries == r.q.queries[1..] && r1.sm == r.sm
    requires r1.answers == r.answers + [Answer(r.q.queries[0].id, r.q.queries[0].floor, r.sm)]
    ensures Served(r, [], r1)
  {
    assert r.q.queries + [] == r.q.queries;
    assert AnswersTo(r.q.queries[..1], r.sm) == [Answer(r.q.queries[0].id, r.q.queries[0].floor, r.sm)];
    assert Serves(r.q.queries + [], 1, r, r1);
  }

  lemma ServedSame(r: Replica, r1: Replica, r2: Replica)
    requires Served(r1, [], r2) && r1.q.queries == r.q.queries && r1.answers == r.answers
    ensures Served(r, [], r2)
  {
    var k: nat :| Serves(r1.q.queries + [], k, r1, r2);
    assert Serves(r.q.queries + [], k, r, r2);
  }

  lemma ApplyServes(cfg: Config, i: nat, r: Replica, op: int)
    ensures var r' := ApplyCommitted(cfg, i, r, op); Served(r, [], r') && r'.view == r.view && r'.status == r.status
    ensures ApplyCommitted(cfg, i, r, op).sm == Execute(r, Min(r.commit, op)).sm
  {
    hide Served, ExecuteQueries;
    var r1 := Execute(r, Min(r.commit, op));
    ExecuteServes(cfg, i, r1);
    ServedSame(r, r1, ExecuteQueries(cfg, i, r1));
  }

  lemma CommitServes(cfg: Config, i: nat, r: Replica, c: nat)
    ensures var r' := CommitUpTo(cfg, i, r, c); Served(r, [], r') && r'.view == r.view && r'.status == r.status
    ensures c > r.commit ==> CommitUpTo(cfg, i, r, c).sm == Execute(r.(commit := c), Min(c, DurableOp(r))).sm
    ensures c <= r.commit ==> CommitUpTo(cfg, i, r, c) == r
  {
    hide Served, ApplyCommitted, Execute;
    if c <= r.commit {
      SameServed(r, r);
    } else {
      var r1 := r.(commit := c);
      ApplyServes(cfg, i, r1, DurableOp(r));
      ServedSame(r, r1, ApplyCommitted(cfg, i, r1, DurableOp(r)));
    }
  }

  lemma AckServes(cfg: Config, i: nat, r: Replica, from: nat, op: int)
    ensures var r' := RegisterAck(cfg, i, r, from, op); Served(r, [], r') && r'.view == r.view && r'.status == r.status
  {
    hide Served, CommitUpTo, QuorumMark;
    var op' := Min(op, |r.log|);
    if from >= |r.acked| || op' <= r.acked[from] {
      SameServed(r, r);
    } else {
      var r1 := r.(acked := r.acked[from := op']);
      CommitServes(cfg, i, r1, QuorumMark(cfg, r1.acked, |r1.acked|));
      ServedSame(r, r1, RegisterAck(cfg, i, r, from, op));
    }
  }

  // ---------------------------------------------------------------------------
  // Handlers of a replica that leads

  lemma ConfirmServes(cfg: Config, i: nat, r: Replica, v: nat, round: nat, from: nat)
    ensures Served(r, [], OnConfirmViewOk(cfg, i, r, v, round, from))
  {
    hide Served, ExecuteQueries, QuorumMark;
    if !(v != r.view || cfg.Primary(v) != i || r.status != Normal || from >= |r.q.confirmed|
         || round > r.q.round || round <= r.q.confirmed[from]) {
      var r1 := r.(q := r.q.(confirmed := r.q.confirmed[from := round]));
      var r2 := r1.(q := r1.q.(done := QuorumMark(cfg, r1.q.confirmed, |r1.q.confirmed|)));
      ExecuteServes(cfg, i, r2);
      ServedSame(r, r2, ExecuteQueries(cfg, i, r2));
      ExecuteServes(cfg, i, StartRound(i, r2));
      ServedSame(r, StartRound(i, r2), ExecuteQueries(cfg, i, StartRound(i, r2)));
      SameServed(r, r1);
    } else {
      SameServed(r, r);
    }
  }

  /** A view that starts is the one the reports are for. */
  lemma StartsOwnView(cfg: Config, i: nat, r: Replica)
    ensures TryStartView(cfg, i, r).view == r.view
  {
    hide CommitUpTo, Best, MaxCommit;
    var best := Best(r.dvcFrom, cfg.n);
    if best.Some? {
      CommitServes(cfg, i, Merge(r, 0, r.dvcFrom[best.value].log), MaxCommit(r.dvcFrom, cfg.n));
    }
  }

  lemma RecordsOwnView(cfg: Config, i: nat, r: Replica, from: nat, d: Report)
    ensures RecordReport(cfg, i, r, from, d).view == r.view
  {
    hide TryStartView;
    StartsOwnView(cfg, i, r.(dvcFrom := r.dvcFrom[from := d]));
  }

  lemma VoteAttends(cfg: Config, i: nat, r: Replica, v: nat, from: nat)
    requires InCharge(cfg, i, r)
    ensures Attends(cfg, i, r, [], OnStartViewChange(cfg, i, r, v, from))
  {
    hide Served, RecordReport;
    var r' := OnStartViewChange(cfg, i, r, v, from);
    if v > r.view {
      var r1 := BeginViewChange(i, r, v);
      var r2 := r1.(svcFrom := r1.svcFrom + {from});
      RecordsOwnView(cfg, i, r2.(dvcSent := true), i, ReportOf(r2));
    } else {
      SameServed(r, r');
    }
  }

  lemma ReportAttends(cfg: Config, i: nat, r: Replica, v: nat, from: nat, d: Report)
    requires InCharge(cfg, i, r)
    ensures Attends(cfg, i, r, [], OnDoViewChange(cfg, i, r, v, from, d))
  {
    hide Served, RecordReport;
    var r' := OnDoViewChange(cfg, i, r, v, from, d);
    if v > r.view && cfg.Primary(v) == i {
      RecordsOwnView(cfg, i, BeginViewChange(i, r, v), from, d);
    } else {
      SameServed(r, r');
    }
  }

  lemma StartViewAttends(cfg: Config, i: nat, r: Replica, v: nat, log: Log, c: nat)
    requires InCharge(cfg, i, r)
    ensures Attends(cfg, i, r, [], OnStartView(cfg, i, r, v, log, c))
  {
    hide Served, CommitUpTo;
    if v > r.view {
      CommitServes(cfg, i, Merge(r, 0, log).(view := v), c);
    } else {
      SameServed(r, OnStartView(cfg, i, r, v, log, c));
    }
  }

  lemma MessageAttends(cfg: Config, i: nat, r: Replica, m: Message)
    requires InCharge(cfg, i, r)
    ensures Attends(cfg, i, r, [], OnMessage(cfg, i, r, m))
  {
    hide Served, RegisterAck, OnStartViewChange, OnDoViewChange, OnStartView, OnConfirmViewOk;
    match m
    case PrepareOk(v, op, j) => AckServes(cfg, i, r, j, op); SameServed(r, r);
    case StartViewChange(v, j) => VoteAttends(cfg, i, r, v, j);
    case DoViewChange(v, j, d) => ReportAttends(cfg, i, r, v, j, d);
    case StartView(v, log, c) => StartViewAttends(cfg, i, r, v, log, c);
    case ConfirmViewOk(v, round, j) => ConfirmServes(cfg, i, r, v, round, j);
    case ConfirmView(v, round) => SameServed(r, OnMessage(cfg, i, r, m));
    case GetState(j, _, v, op) => SameServed(r, OnMessage(cfg, i, r, m));
    case NewState(_, _, v, s, es, c) => SameServed(r, OnMessage(cfg, i, r, m));
    case Commit(v, c) => SameServed(r, r);
    case Prepare(v, op, e, c) => SameServed(r, r);
  }

  // ---------------------------------------------------------------------------
  // Steps

  function Ids(queries: seq<WaitingQuery>): set<nat> { set x | x in queries :: x.id }

  lemma QueryServed(cfg: Config, i: nat, r: Replica, id: nat, floor: Log, moved: set<nat>)
    requires InCharge(cfg, i, r)
    ensures var r' := OnQuery(cfg, i, r, id, floor, moved);
            if id in Ids(r.q.queries) then r' == r
            else exists x: WaitingQuery :: x.id == id && x.floor == floor && Served(r, [x], r') && r'.q.queries == r.q.queries + [x]
  {
    var r' := OnQuery(cfg, i, r, id, floor, moved);
    if id !in Ids(r.q.queries) {
      assert !exists q :: q in r.q.queries && q.id == id;
      var x := r'.q.queries[|r.q.queries|];
      assert r'.q.queries == r.q.queries + [x];
      assert Serves(r.q.queries + [x], 0, r, r');
    }
  }

  lemma InputAttends(cfg: Config, i: nat, r: Replica, input: Input, h: History)
    requires InCharge(cfg, i, r) && !input.Query?
    ensures Attends(cfg, i, r, [], OnInput(cfg, i, r, input, h))
  {
    hide Served, OnMessage;
    match input
    case ClientEntry(e) => SameServed(r, OnRequest(cfg, i, r, e));
    case Receive(m) => MessageAttends(cfg, i, r, m);
    case Timeout => SameServed(r, OnTimeout(cfg, i, r));
    case IdlePrimary(due) => SameServed(r, OnIdlePrimary(cfg, i, r, due));
    case IdleTransfer => SameServed(r, r);
    case IdleViewChange => SameServed(r, r);
  }

  lemma LandServes(cfg: Config, i: nat, r: Replica, skip: bool)
    requires r.out.Some?
    ensures Served(r, [], Persisted(cfg, i, r, skip))
  {
    hide Served, RegisterAck, ApplyCommitted;
    var out := r.out.value;
    var r1 := r.(out := None, disk := if skip then r.disk else out, durable := |out.log|, waiting := {});
    var acks := r1.status == Normal && cfg.Primary(r1.view) == i && out.lastNormal == r1.view;
    var r2 := if acks then RegisterAck(cfg, i, r1, i, DurableOp(r1)) else r1;
    var r3 := ApplyCommitted(cfg, i, r2, DurableOp(r1));
    ApplyServes(cfg, i, r2, DurableOp(r1));
    SameServed(r, r1);
    if acks {
      AckServes(cfg, i, r1, i, DurableOp(r1));
      AckThenApply(cfg, i, r1, i, DurableOp(r1));
      ServedTwice(r1, r2, r3);
    }
    ServedSame(r, r1, r3);
  }

  /** What an acknowledgement lets execute leaves nothing for after it. */
  lemma AckThenApply(cfg: Config, i: nat, r: Replica, from: nat, op: int)
    requires op == DurableOp(r)
    ensures var r2 := RegisterAck(cfg, i, r, from, op);
            r2.answers == r.answers || r2.sm == ApplyCommitted(cfg, i, r2, op).sm
  {
    hide ExecuteQueries, QuorumMark;
    var op' := Min(op, |r.log|);
    if from < |r.acked| && op' > r.acked[from] {
      var r1 := r.(acked := r.acked[from := op']);
      var c := QuorumMark(cfg, r1.acked, |r1.acked|);
      if c > r.commit {
        var r2 := r1.(commit := c);
        ApplyTwice(cfg, i, r2, op);
      }
    }
  }

  lemma ApplyTwice(cfg: Config, i: nat, r: Replica, op: int)
    ensures var r' := ApplyCommitted(cfg, i, r, op); r'.commit == r.commit && r'.log == r.log && ApplyCommitted(cfg, i, r', op).sm == r'.sm
  {
    hide ExecuteQueries;
    var r1 := Execute(r, Min(r.commit, op));
    ExecuteFrame(cfg, i, r1);
    var r' := ExecuteQueries(cfg, i, r1);
    ExecuteFrame(cfg, i, Execute(r', Min(r.commit, op)));
  }

  lemma {:induction false} ExecuteFrame(cfg: Config, i: nat, r: Replica)
    ensures OnlyAnswers(r, ExecuteQueries(cfg, i, r))
    decreases |r.q.queries|
  {
    if cfg.Primary(r.view) == i && r.status == Normal && r.q.queries != []
       && r.q.queries[0].round <= r.q.done && r.q.queries[0].op <= |r.sm| {
      ExecuteFrame(cfg, i, r.(q := r.q.(queries := r.q.queries[1..]),
                              answers := r.answers + [Answer(r.q.queries[0].id, r.q.queries[0].floor, r.sm)]));
    }
  }

  /** A crash ends it: the replica comes back to a later view, or changes views. */
  lemma CrashEnds(cfg: Config, i: nat, disk: Image, flushed: Log)
    ensures !InCharge(cfg, i, Restart(cfg, i, disk, flushed))
  {
    hide ExecuteQueries;
    var commit := Max(disk.commit, |flushed|);
    var log := if |flushed| > disk.commit then flushed + Drop(disk.log, |flushed|) else disk.log;
    var r := New(cfg).(view := disk.view, lastNormal := disk.lastNormal, commit := commit, log := log,
                       sm := flushed, flushed := flushed, durable := |log|, disk := disk,
                       failed := commit > |log|);
    ApplyServes(cfg, i, r, |log|);
  }

  /** The event is a query that the replica takes: none with its id waits. */
  predicate Takes(r: Replica, e: Event) { e.Act? && e.input.Query? && e.input.id !in Ids(r.q.queries) }

  /** The queries that the step adds to those waiting in `r`, with what had completed. */
  ghost predicate Adds(s: System, e: Event, queries: seq<WaitingQuery>)
    requires e.i < |s.reps|
  {
    if Takes(s.reps[e.i], e) then |queries| == 1 && queries[0].id == e.input.id && queries[0].floor == s.h.completed else queries == []
  }

  /** One step: a replica that goes on leading its view answers the queries at the front of those that
      waited and the one it takes, in turn and from the state it has then, and the others wait. */
  lemma StepServes(s: System, e: Event) returns (queries: seq<WaitingQuery>)
    requires Enabled(s, e) && InCharge(s.h.cfg, e.i, s.reps[e.i])
    ensures var r' := Step(s, e).reps[e.i];
            InCharge(s.h.cfg, e.i, r') && r'.view == s.reps[e.i].view ==> Adds(s, e, queries) && Served(s.reps[e.i], queries, r')
  {
    hide Served, OnInput, Restored, Persisted, Restart, Acted, Ids;
    var i, r := e.i, s.reps[e.i];
    queries := [];
    match e
    case Act(_, input) =>
      if input.Query? {
        InputIsQuery(s.h.cfg, i, r, input, s.h);
        QueryServed(s.h.cfg, i, r, input.id, s.h.completed, Moved(s.h, r.view));
        if Takes(r, e) {
          var x: WaitingQuery :| x.id == input.id && x.floor == s.h.completed && Served(r, [x], OnInput(s.h.cfg, i, r, input, s.h));
          queries := [x];
        } else {
          SameServed(r, r);
        }
      } else {
        InputAttends(s.h.cfg, i, r, input, s.h);
      }
    case Drain(_, _) => SameServed(r, Step(s, e).reps[i]);
    case Take(_) => SameServed(r, TakeWrite(r));
    case Land(_, skip) => LandServes(s.h.cfg, i, r, skip);
    case Flush(_) => SameServed(r, Step(s, e).reps[i]);
    case Restore(_, m, k) =>
    case Crash(_, landed) => CrashEnds(s.h.cfg, i, if landed then r.out.value else r.disk, r.flushed);
  }

  lemma InputIsQuery(cfg: Config, i: nat, r: Replica, input: Input, h: History)
    requires input.Query?
    ensures OnInput(cfg, i, r, input, h) == OnQuery(cfg, i, r, input.id, h.completed, Moved(h, r.view))
  {
  }

  // ---------------------------------------------------------------------------
  // Runs

  /** Replica `i` leads one view from state `a` to state `b` of the run. */
  ghost predicate LeadsOn(cfg: Config, run: seq<System>, a: nat, b: nat, i: nat) {
    a <= b < |run| && i < |run[a].reps| && forall k {:trigger run[k]} :: a <= k <= b ==>
      i < |run[k].reps| && InCharge(cfg, i, run[k].reps[i]) && run[k].reps[i].view == run[a].reps[i].view
  }

  /** The step from state `k` takes query `id` at replica `i`. */
  ghost predicate TakenAt(run: seq<System>, k: nat, i: nat, id: nat) {
    Asked(run, k, i, id) && i < |run[k].reps| && id !in Ids(run[k].reps[i].q.queries)
  }

  /** The queries replica `i` took from state `a` to state `b`, in order, each with what had completed. */
  ghost function TakenIn(run: seq<System>, a: nat, b: nat, i: nat): seq<(nat, Log)>
    requires a <= b < |run|
    decreases b
  {
    if a == b then [] else TakenIn(run, a, b - 1, i) + TakenNow(run, b - 1, i)
  }

  ghost function TakenNow(run: seq<System>, k: nat, i: nat): seq<(nat, Log)>
    requires k < |run|
  {
    if exists id: nat :: TakenAt(run, k, i, id) then [(TheTaken(run, k, i), run[k].h.completed)] else []
  }

  ghost function TheTaken(run: seq<System>, k: nat, i: nat): (id: nat)
    requires exists id: nat :: TakenAt(run, k, i, id)
    ensures TakenAt(run, k, i, id)
  {
    var id: nat :| TakenAt(run, k, i, id);
    id
  }

  /** The ids and floors of queries that wait, and of answers. */
  function Waiting(queries: seq<WaitingQuery>): seq<(nat, Log)> {
    seq(|queries|, k requires 0 <= k < |queries| => (queries[k].id, queries[k].floor))
  }

  function Given(answers: seq<Answer>): seq<(nat, Log)> {
    seq(|answers|, k requires 0 <= k < |answers| => (answers[k].id, answers[k].floor))
  }

  lemma ServedKeeps(r: Replica, queries: seq<WaitingQuery>, r': Replica)
    requires Served(r, queries, r')
    ensures r.answers <= r'.answers
    ensures Given(r'.answers[|r.answers|..]) + Waiting(r'.q.queries) == Waiting(r.q.queries) + Waiting(queries)
    ensures forall x {:trigger r'.answers[x]} :: |r.answers| <= x < |r'.answers| ==> r'.answers[x].state == r'.sm
  {
    var all := r.q.queries + queries;
    var k: nat :| Serves(all, k, r, r');
    assert r'.answers[|r.answers|..] == AnswersTo(all[..k], r'.sm);
    GivenTo(all[..k], r'.sm);
    WaitingJoin(all[..k], all[k..]);
    WaitingJoin(r.q.queries, queries);
    assert all[..k] + all[k..] == all;
    hide Given, Waiting;
    forall x | |r.answers| <= x < |r'.answers|
      ensures r'.answers[x].state == r'.sm
    {
      assert r'.answers[x] == AnswersTo(all[..k], r'.sm)[x - |r.answers|];
    }
  }

  lemma GivenTo(queries: seq<WaitingQuery>, sm: Log)
    ensures Given(AnswersTo(queries, sm)) == Waiting(queries)
  {
  }

  lemma WaitingJoin(a: seq<WaitingQuery>, b: seq<WaitingQuery>)
    ensures Waiting(a + b) == Waiting(a) + Waiting(b)
  {
  }

  lemma GivenJoin(a: seq<Answer>, b: seq<Answer>)
    ensures Given(a + b) == Given(a) + Given(b)
  {
  }

  lemma StepTakes(s: System, i: nat, id: nat) returns (x: WaitingQuery)
    requires Enabled(s, Act(i, Query(id))) && InCharge(s.h.cfg, i, s.reps[i]) && id !in Ids(s.reps[i].q.queries)
    ensures x.id == id && x.floor == s.h.completed && Served(s.reps[i], [x], Step(s, Act(i, Query(id))).reps[i])
  {
    hide Served, OnInput, Acted, Ids;
    var r := s.reps[i];
    InputIsQuery(s.h.cfg, i, r, Query(id), s.h);
    QueryServed(s.h.cfg, i, r, id, s.h.completed, Moved(s.h, r.view));
    x :| x.id == id && x.floor == s.h.completed && Served(r, [x], OnInput(s.h.cfg, i, r, Query(id), s.h));
  }

  /** Which query a step takes is determined by the state it leaves. */
  lemma TakenIsAdded(cfg: Config, run: seq<System>, k: nat, i: nat, e: Event, queries: seq<WaitingQuery>)
    requires k + 1 < |run| && i < |run[k].reps| && i < |run[k + 1].reps| && run[k].h.cfg == cfg && Enabled(run[k], e) && run[k + 1] == Step(run[k], e) && e.i == i
    requires InCharge(cfg, i, run[k].reps[i]) && Adds(run[k], e, queries) && Served(run[k].reps[i], queries, run[k + 1].reps[i])
    ensures TakenNow(run, k, i) == Waiting(queries)
  {
    hide Step, Served, Ids;
    var s, r := run[k], run[k].reps[i];
    if Takes(r, e) {
      assert TakenAt(run, k, i, e.input.id);
    }
    if exists id: nat :: TakenAt(run, k, i, id) {
      var id := TheTaken(run, k, i);
      ServedKeeps(r, queries, run[k + 1].reps[i]);
      var x := StepTakes(s, i, id);
      ServedKeeps(r, [x], run[k + 1].reps[i]);
      assert Waiting(r.q.queries) + Waiting([x]) == Waiting(r.q.queries) + Waiting(queries);
      SameEnd(Waiting(r.q.queries), Waiting([x]), Waiting(queries));
    }
  }

  lemma SameEnd<T>(a: seq<T>, b: seq<T>, c: seq<T>)
    requires a + b == a + c
    ensures b == c
  {
    assert b == (a + b)[|a|..] && c == (a + c)[|a|..];
  }

  /** One step of any replica, seen from one that goes on leading. */
  lemma StepConserves(cfg: Config, run: seq<System>, k: nat, i: nat)
    requires cfg.Sound() && IsRun(cfg, run) && LeadsOn(cfg, run, k, k + 1, i)
    ensures var r, r' := run[k].reps[i], run[k + 1].reps[i];
            && r.answers <= r'.answers
            && Given(r'.answers[|r.answers|..]) + Waiting(r'.q.queries) == Waiting(r.q.queries) + TakenNow(run, k, i)
            && forall x {:trigger r'.answers[x]} :: |r.answers| <= x < |r'.answers| ==> r'.answers[x].state == r'.sm
  {
    hide Step, Served, Ids, TakenAt, InCharge;
    var s, r := run[k], run[k].reps[i];
    assert s.h.cfg == cfg by { RunOk(cfg, run, k, k); }
    assert IsStep(run[k], run[k + 1]);
    var e :| Enabled(s, e) && run[k + 1] == Step(s, e);
    if e.i == i {
      var queries := StepServes(s, e);
      TakenIsAdded(cfg, run, k, i, e, queries);
      ServedKeeps(r, queries, run[k + 1].reps[i]);
    } else {
      StepReps(s, e);
      assert run[k + 1].reps[i] == r;
      NotTaken(cfg, run, k, i);
      assert r.answers[|r.answers|..] == [];
    }
  }

  /** A step that leaves the replica as it is takes no query. */
  lemma NotTaken(cfg: Config, run: seq<System>, k: nat, i: nat)
    requires k + 1 < |run| && i < |run[k].reps| && i < |run[k + 1].reps| && run[k].h.cfg == cfg && InCharge(cfg, i, run[k].reps[i])
    requires run[k + 1].reps[i] == run[k].reps[i]
    ensures TakenNow(run, k, i) == []
  {
    hide Step, Served, Ids;
    var r := run[k].reps[i];
    if exists id: nat :: TakenAt(run, k, i, id) {
      var x := StepTakes(run[k], i, TheTaken(run, k, i));
      NoneServed(r, x);
    }
  }

  lemma NoneServed(r: Replica, x: WaitingQuery)
    ensures !Served(r, [x], r)
  {
    var all := r.q.queries + [x];
    forall k: nat | k <= |all|
      ensures !Serves(all, k, r, r)
    {
      if k == 0 {
        assert |all[k..]| == |r.q.queries| + 1;
      } else {
        assert |AnswersTo(all[..k], r.sm)| == k;
      }
    }
  }

  /** No query is dropped, answered twice, or answered out of turn: in any stretch of a run in which a
      replica leads one view, the queries answered in it and those that wait at its end are, one for one
      and in order, those that waited at its start and those taken in it. */
  lemma {:induction false} Conserved(cfg: Config, run: seq<System>, a: nat, b: nat, i: nat)
    requires cfg.Sound() && IsRun(cfg, run) && LeadsOn(cfg, run, a, b, i)
    ensures var r, r' := run[a].reps[i], run[b].reps[i];
            && r.answers <= r'.answers
            && Given(r'.answers[|r.answers|..]) + Waiting(r'.q.queries) == Waiting(r.q.queries) + TakenIn(run, a, b, i)
    decreases b
  {
    hide InCharge, IsRun, TakenNow;
    var r, r' := run[a].reps[i], run[b].reps[i];
    if a == b {
      assert r.answers[|r.answers|..] == [];
    } else {
      var r1 := run[b - 1].reps[i];
      assert LeadsOn(cfg, run, a, b - 1, i) && LeadsOn(cfg, run, b - 1, b - 1 + 1, i);
      Conserved(cfg, run, a, b - 1, i);
      StepConserves(cfg, run, b - 1, i);
      assert r'.answers[|r.answers|..] == r1.answers[|r.answers|..] + r'.answers[|r1.answers|..];
      GivenJoin(r1.answers[|r.answers|..], r'.answers[|r1.answers|..]);
      Regroup(Given(r1.answers[|r.answers|..]), Given(r'.answers[|r1.answers|..]), Waiting(r'.q.queries), Waiting(r1.q.queries),
              TakenNow(run, b - 1, i), Waiting(r.q.queries), TakenIn(run, a, b - 1, i));
    }
  }

  lemma Regroup<T>(a: seq<T>, b: seq<T>, c: seq<T>, d: seq<T>, e: seq<T>, f: seq<T>, g: seq<T>)
    requires b + c == d + e && a + d == f + g
    ensures a + b + c == f + (g + e)
  {
    assert a + b + c == a + (b + c) == a + (d + e) == (a + d) + e == f + g + e == f + (g + e);
  }
}
