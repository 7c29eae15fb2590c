/** The client table of a replica: its sessions, what its log has pending for each client, and a list
    of sessions to evict that is only brought up to date when it runs out. */
module ClientTable {
  import opened Types
  import opened Sessions
  import opened Ordering
  import opened Tables

  datatype ClientState = ClientState(record: Option<Record>, pending: Option<Key>)

  datatype Reply =
    | Registered(client: nat, session: nat)
    | Executed(client: nat, session: nat, number: nat, result: Output)
    | Evicted(client: nat, session: nat)

  /** The state machine: the ops it executed, the client table handed to it, and the last op it was
      handed either at. */
  datatype StateMachine = StateMachine(op: nat, executed: seq<Op>, table: Table) {
    function Apply(at: nat, o: Op): StateMachine { this.(op := at, executed := executed + [o]) }

    function RecordClient(at: nat, c: nat, record: Option<Record>): StateMachine {
      this.(op := at, table := match record case Some(r) => table[c := r] case None => table - {c})
    }
  }

  /** A session that may be the next to go: the op of its latest entry when it was listed, and its client. */
  datatype Candidate = Candidate(op: nat, client: nat)

  // ---------------------------------------------------------------------------
  // What the table stands for

  function Records(clients: map<nat, ClientState>): Table {
    map c | c in clients && clients[c].record.Some? :: clients[c].record.value
  }

  function PendingIn(clients: map<nat, ClientState>, c: nat): Option<Key> {
    if c in clients then clients[c].pending else None
  }

  ghost predicate PendingOk(clients: map<nat, ClientState>, log: Log, applied: nat) {
    forall c: nat {:trigger PendingIn(clients, c)} :: PendingIn(clients, c) == PendingOf(log, applied, c)
  }

  /** Nothing is kept for a client without a session or an entry. */
  ghost predicate Tidy(clients: map<nat, ClientState>) {
    forall c {:trigger clients[c]} :: c in clients ==> clients[c].record.Some? || clients[c].pending.Some?
  }

  ghost predicate Sorted(list: seq<Candidate>) {
    forall i, j :: 0 <= i < j < |list| ==> list[i].op <= list[j].op
  }

  /** A session is on the list as it is now, or is no older than anything on it. */
  ghost predicate Covered(list: seq<Candidate>, c: nat, r: Record) {
    Candidate(r.op, c) in list || forall i {:trigger list[i]} :: 0 <= i < |list| ==> list[i].op <= r.op
  }

  ghost predicate CandidatesOk(list: seq<Candidate>, table: Table, applied: nat) {
    && Sorted(list)
    && (forall i {:trigger list[i]} :: 0 <= i < |list| ==> list[i].op <= applied)
    && (forall c {:trigger table[c]} :: c in table ==> Covered(list, c, table[c]))
  }

  /** The candidate is a session as it is now, not one that has executed since or is gone. */
  predicate Current(table: Table, x: Candidate) { x.client in table && table[x.client].op == x.op }

  /** The first candidate that is current is the session to evict, whatever is listed or not. */
  lemma FrontIsLeast(list: seq<Candidate>, table: Table, applied: nat)
    requires CandidatesOk(list, table, applied) && list != [] && Current(table, list[0])
    ensures IsLeast(table, list[0].client)
  {
    forall d | d in table
      ensures list[0].op <= table[d].op
    {
      assert Covered(list, d, table[d]);
      if Candidate(table[d].op, d) in list {
        var j :| 0 <= j < |list| && list[j] == Candidate(table[d].op, d);
      }
    }
  }

  lemma PopStale(list: seq<Candidate>, table: Table, applied: nat)
    requires CandidatesOk(list, table, applied) && list != [] && !Current(table, list[0])
    ensures CandidatesOk(list[1..], table, applied)
  {
    var rest := list[1..];
    forall c | c in table
      ensures Covered(rest, c, table[c])
    {
      assert Covered(list, c, table[c]);
      if Candidate(table[c].op, c) in list {
        var j :| 0 <= j < |list| && list[j] == Candidate(table[c].op, c);
        assert rest[j - 1] == list[j];
      }
    }
  }

  lemma PopCurrent(list: seq<Candidate>, table: Table, applied: nat)
    requires CandidatesOk(list, table, applied) && list != []
    ensures CandidatesOk(list[1..], table - {list[0].client}, applied)
  {
    var rest, table' := list[1..], table - {list[0].client};
    forall c | c in table'
      ensures Covered(rest, c, table'[c])
    {
      assert Covered(list, c, table[c]);
      if Candidate(table[c].op, c) in list {
        var j :| 0 <= j < |list| && list[j] == Candidate(table[c].op, c);
        assert rest[j - 1] == list[j];
      }
    }
  }

  /** A session that executes at a later op, or is new, is no older than what is listed. */
  lemma LaterCovered(list: seq<Candidate>, table: Table, applied: nat, c: nat, r: Record)
    requires CandidatesOk(list, table, applied) && r.op == applied + 1
    ensures CandidatesOk(list, table[c := r], applied + 1)
  {
    var table' := table[c := r];
    forall d | d in table'
      ensures Covered(list, d, table'[d])
    {
      if d != c {
        assert Covered(list, d, table[d]);
      }
    }
  }

  // ---------------------------------------------------------------------------
  // Changes to the table

  lemma SetState(clients: map<nat, ClientState>, c: nat, st: ClientState)
    requires Tidy(clients) && (st.record.Some? || st.pending.Some?)
    ensures var clients' := clients[c := st];
            && Tidy(clients')
            && Records(clients') == (if st.record.Some? then Records(clients)[c := st.record.value] else Records(clients) - {c})
            && PendingIn(clients', c) == st.pending
            && forall d: nat {:trigger PendingIn(clients', d)} :: d != c ==> PendingIn(clients', d) == PendingIn(clients, d)
  {
  }

  lemma DropState(clients: map<nat, ClientState>, c: nat)
    requires Tidy(clients)
    ensures var clients' := clients - {c};
            && Tidy(clients')
            && Records(clients') == Records(clients) - {c}
            && PendingIn(clients', c) == None
            && forall d: nat {:trigger PendingIn(clients', d)} :: d != c ==> PendingIn(clients', d) == PendingIn(clients, d)
  {
  }

  /** Sets what is kept for client `c`, or drops it if there is nothing to keep. */
  function Put(clients: map<nat, ClientState>, c: nat, st: ClientState): map<nat, ClientState> {
    if st.record.Some? || st.pending.Some? then clients[c := st] else clients - {c}
  }

  lemma PutOk(clients: map<nat, ClientState>, c: nat, st: ClientState)
    requires Tidy(clients)
    ensures var clients' := Put(clients, c, st);
            && Tidy(clients')
            && Records(clients') == (if st.record.Some? then Records(clients)[c := st.record.value] else Records(clients) - {c})
            && PendingIn(clients', c) == st.pending
            && forall d: nat {:trigger PendingIn(clients', d)} :: d != c ==> PendingIn(clients', d) == PendingIn(clients, d)
  {
    if st.record.Some? || st.pending.Some? {
      SetState(clients, c, st);
    } else {
      DropState(clients, c);
    }
  }

  function StateOf(clients: map<nat, ClientState>, c: nat): ClientState {
    if c in clients then clients[c] else ClientState(None, None)
  }

  lemma StateParts(clients: map<nat, ClientState>, c: nat)
    ensures StateOf(clients, c).pending == PendingIn(clients, c)
    ensures StateOf(clients, c).record.Some? <==> c in Records(clients)
    ensures c in Records(clients) ==> StateOf(clients, c).record.value == Records(clients)[c]
  {
  }

  /** What is pending of the client once the entry of key `key` executes. */
  function Cleared(pending: Option<Key>, key: Key): Option<Key> { if pending == Some(key) then None else pending }

  lemma PendingExecuted(lim: Limits, clients: map<nat, ClientState>, clients': map<nat, ClientState>, log: Log, applied: nat)
    requires Good(lim, log) && applied < |log| && PendingOk(clients, log, applied)
    requires var c := log[applied].client; OnlyPending(clients, clients', c, Cleared(PendingIn(clients, c), KeyOf(applied + 1, log[applied])))
    ensures PendingOk(clients', log, applied + 1)
  {
    forall d: nat
      ensures PendingIn(clients', d) == PendingOf(log, applied + 1, d)
    {
      PendingNext(lim, log, applied, d);
      assert PendingIn(clients, d) == PendingOf(log, applied, d);
    }
  }

  lemma PendingAppended(clients: map<nat, ClientState>, clients': map<nat, ClientState>, log: Log, applied: nat, e: LogEntry)
    requires applied <= |log| && PendingOk(clients, log, applied)
    requires OnlyPending(clients, clients', e.client, Some(KeyOf(|log| + 1, e)))
    ensures PendingOk(clients', log + [e], applied)
  {
    forall d: nat
      ensures PendingIn(clients', d) == PendingOf(log + [e], applied, d)
    {
      PendingAppend(log, applied, d, e);
      assert PendingIn(clients, d) == PendingOf(log, applied, d);
    }
  }

  /** The table of a replica that has executed `applied` entries of its log. */
  ghost predicate TableOk(lim: Limits, clients: map<nat, ClientState>, sessions: nat, list: seq<Candidate>, m: Model) {
    && Records(clients) == m.table
    && sessions == |m.table|
    && Tidy(clients)
    && CandidatesOk(list, m.table, m.fed)
  }

  /** The state machine of a replica that fed it the entries of `m`. */
  ghost function Fed(m: Model): StateMachine { StateMachine(m.fed, m.executed, m.table) }

  /** The state machine as the first entries of the log, up to its op, leave it. */
  ghost predicate Holds(lim: Limits, log: Log, applied: nat, machine: StateMachine) {
    machine.op <= applied <= |log| && machine == Fed(After(lim, log, machine.op))
  }

  /** The state machine, what it made durable, and the checkpoint it keeps. */
  ghost predicate MachinesOk(lim: Limits, log: Log, applied: nat, machine: StateMachine, flushed: StateMachine, kept: Option<StateMachine>) {
    && machine.op == applied && Holds(lim, log, applied, machine)
    && Holds(lim, log, applied, flushed)
    && (kept.Some? ==> Holds(lim, log, applied, kept.value))
  }

  /** What a state machine holds is a matter of the log up to its op. */
  lemma HoldsSame(lim: Limits, log: Log, log': Log, applied: nat, applied': nat, machine: StateMachine)
    requires Holds(lim, log, applied, machine) && machine.op <= applied' <= |log'| && log'[..machine.op] == log[..machine.op]
    ensures Holds(lim, log', applied', machine)
  {
  }

  lemma MachinesSame(lim: Limits, log: Log, log': Log, applied: nat, machine: StateMachine, flushed: StateMachine, kept: Option<StateMachine>)
    requires MachinesOk(lim, log, applied, machine, flushed, kept) && applied <= |log'| && log'[..applied] == log[..applied]
    ensures MachinesOk(lim, log', applied, machine, flushed, kept)
  {
    hide Fold;
    forall k | 0 <= k <= applied
      ensures log'[..k] == log[..k]
    {
      assert log'[..k] == log'[..applied][..k];
    }
  }

  /** One more entry executed. */
  lemma MachinesNext(lim: Limits, log: Log, applied: nat, machine: StateMachine, machine': StateMachine, flushed: StateMachine,
                     kept: Option<StateMachine>)
    requires MachinesOk(lim, log, applied, machine, flushed, kept) && applied < |log|
    requires machine' == Fed(Feed(lim, After(lim, log, applied), log[applied]))
    ensures MachinesOk(lim, log, applied + 1, machine', flushed, kept)
  {
    hide Fold, Feed;
    AfterNext(lim, log, applied);
  }

  lemma FlushedPart(lim: Limits, log: Log, applied: nat, machine: StateMachine, flushed: StateMachine, kept: Option<StateMachine>)
    requires MachinesOk(lim, log, applied, machine, flushed, kept)
    ensures Holds(lim, log, applied, flushed)
  {
  }

  lemma KeptPart(lim: Limits, log: Log, applied: nat, machine: StateMachine, flushed: StateMachine, kept: Option<StateMachine>)
    requires MachinesOk(lim, log, applied, machine, flushed, kept) && kept.Some?
    ensures Holds(lim, log, applied, kept.value)
  {
  }

  /** A state machine that holds the first entries of one log is that of every log that starts with them,
      and so is the table loaded from it. */
  lemma Reloaded(lim: Limits, log: Log, applied: nat, machine: StateMachine, entries: Log, clients: map<nat, ClientState>)
    requires Holds(lim, log, applied, machine) && Records(clients) == machine.table && Tidy(clients)
    ensures var log' := log[..machine.op] + entries;
            && MachinesOk(lim, log', machine.op, machine, machine, None)
            && TableOk(lim, clients, |machine.table|, [], After(lim, log', machine.op))
  {
    hide Fold, Tidy;
    HoldsSame(lim, log, log[..machine.op] + entries, applied, machine.op, machine);
  }

  /** The record handed over once more of a client whose entry executes nothing. */
  lemma RecordedAgain(lim: Limits, m: Model, e: LogEntry, record: Option<Record>)
    requires if e.Register? then e.client in m.table else !InSession(m.table, e.client, e.session)
    requires record.Some? <==> e.client in m.table
    requires record.Some? ==> record.value == m.table[e.client]
    ensures Fed(Feed(lim, m, e)) == Fed(m).RecordClient(m.fed + 1, e.client, record)
  {
  }

  lemma FedOpened(lim: Limits, m: Model, c: nat)
    requires c !in m.table
    ensures Fed(Feed(lim, m, LogEntry.Register(c))) ==
            StateMachine(m.fed + 1, m.executed, Sessions.Evicted(lim, m.table)[c := Record(m.fed + 1, 0, [], m.fed + 1)])
  {
  }

  lemma FedExecuted(lim: Limits, m: Model, e: LogEntry)
    requires e.Request? && InSession(m.table, e.client, e.session) && e.number == m.table[e.client].number + 1
    ensures var result := m.executed + [e.op];
            var replies := Keep(m.table[e.client].replies + [result], Kept(lim, e.number, e.answered));
            Fed(Feed(lim, m, e)) ==
            StateMachine(m.fed + 1, result, m.table[e.client := Record(e.session, e.number, replies, m.fed + 1)])
  {
  }

  lemma MachinePart(lim: Limits, log: Log, applied: nat, machine: StateMachine, flushed: StateMachine, kept: Option<StateMachine>)
    requires MachinesOk(lim, log, applied, machine, flushed, kept)
    ensures applied <= |log| && machine == Fed(After(lim, log, applied))
  {
  }

  // ---------------------------------------------------------------------------
  // Scanning for candidates

  method FindLeast(table: Table) returns (c: nat)
    requires table != map[]
    ensures IsLeast(table, c)
  {
    c :| c in table.Keys;
    var rest := table.Keys - {c};
    while rest != {}
      invariant c in table && rest <= table.Keys
      invariant forall d {:trigger table[d]} :: d in table && d !in rest ==> table[c].op <= table[d].op
      decreases |rest|
    {
      var d :| d in rest;
      rest := rest - {d};
      if table[d].op < table[c].op {
        c := d;
      }
    }
  }

  /** The candidates found so far: the oldest sessions, in order, of `table`, with `rest` left. */
  ghost predicate Found(list: seq<Candidate>, table: Table, rest: Table) {
    && Sorted(list)
    && (forall c {:trigger table[c]} :: c in table ==> (c in rest && rest[c] == table[c]) || Candidate(table[c].op, c) in list)
    && (forall i {:trigger list[i]} :: 0 <= i < |list| ==> Current(table, list[i]))
    && (forall c, i {:trigger rest[c], list[i]} :: c in rest && 0 <= i < |list| ==> list[i].op <= rest[c].op)
    && (forall c {:trigger rest[c]} :: c in rest ==> c in table && rest[c] == table[c])
  }

  lemma FoundNext(list: seq<Candidate>, table: Table, rest: Table, c: nat)
    requires Found(list, table, rest) && IsLeast(rest, c)
    ensures Found(list + [Candidate(rest[c].op, c)], table, rest - {c})
  {
    var list', rest' := list + [Candidate(rest[c].op, c)], rest - {c};
    forall d | d in table
      ensures (d in rest' && rest'[d] == table[d]) || Candidate(table[d].op, d) in list'
    {
      if Candidate(table[d].op, d) in list {
        var j :| 0 <= j < |list| && list[j] == Candidate(table[d].op, d);
        assert list'[j] == list[j];
      } else if d == c {
        assert list'[|list|] == Candidate(table[d].op, d);
      }
    }
  }

  lemma FoundOk(list: seq<Candidate>, table: Table, rest: Table, applied: nat)
    requires Found(list, table, rest) && list != []
    requires forall c {:trigger table[c]} :: c in table ==> table[c].op <= applied
    ensures CandidatesOk(list, table, applied) && Current(table, list[0])
  {
    forall c | c in table
      ensures Covered(list, c, table[c])
    {
      assert c in rest ==> rest[c] == table[c];
    }
  }

  /** The oldest sessions, a sixteenth of them and at least one, oldest first. */
  method FindCandidates(table: Table, ghost applied: nat) returns (list: seq<Candidate>)
    requires table != map[] && forall c {:trigger table[c]} :: c in table ==> table[c].op <= applied
    ensures |list| == Max(1, |table| / 16)
    ensures CandidatesOk(list, table, applied) && list != [] && Current(table, list[0])
  {
    var kept := Max(1, |table| / 16);
    var rest := table;
    list := [];
    while |list| < kept
      invariant |list| <= kept && |rest| == |table| - |list| && Found(list, table, rest)
    {
      var c := FindLeast(rest);
      FoundNext(list, table, rest, c);
      list := list + [Candidate(rest[c].op, c)];
      assert (rest - {c}).Keys == rest.Keys - {c};
      assert |(rest - {c}).Keys| == |rest - {c}| && |rest.Keys| == |rest|;
      rest := rest - {c};
    }
    FoundOk(list, table, rest, applied);
  }

  // ---------------------------------------------------------------------------
  // The replica

  class Server {
    const lim: Limits
    var clients: map<nat, ClientState>
    var sessions: nat
    var candidates: seq<Candidate>
    var log: Log
    var applied: nat
    var machine: StateMachine
    // What the state machine made durable.
    var flushed: StateMachine
    // The checkpoint kept for replicas that fell behind.
    var kept: Option<StateMachine>

    /** What the entries executed come to. */
    ghost function Model(): Model
      requires applied <= |log|
      reads this
    {
      After(lim, log, applied)
    }

    /** The table, the state machine and what is pending are those of the log, executed up to `applied`. */
    ghost predicate Valid()
      reads this
    {
      && lim.Valid() && applied <= |log| && Good(lim, log)
      && TableOk(lim, clients, sessions, candidates, Model())
      && MachinesOk(lim, log, applied, machine, flushed, kept)
      && PendingOk(clients, log, applied)
    }

    constructor (lim: Limits)
      requires lim.Valid()
      ensures Valid() && this.lim == lim && log == [] && applied == 0 && clients == map[] && kept.None?
    {
      this.lim := lim;
      clients, sessions, candidates, log, applied := map[], 0, [], [], 0;
      machine, flushed, kept := StateMachine(0, [], map[]), StateMachine(0, [], map[]), None;
    }

    /** Evicts the session whose latest entry executed earliest, as of `op`. */
    method Evict(op: nat)
      requires Distinct(Records(clients)) && Records(clients) != map[] && Tidy(clients) && sessions == |Records(clients)|
      requires CandidatesOk(candidates, Records(clients), applied)
      requires forall c {:trigger Records(clients)[c]} :: c in Records(clients) ==> Records(clients)[c].op <= applied
      modifies this`clients, this`candidates, this`sessions, this`machine
      ensures Records(clients) == old(Records(clients)) - {Least(old(Records(clients)))} && sessions == |Records(clients)|
      ensures machine == old(machine).(op := op, table := old(machine).table - {Least(old(Records(clients)))})
      ensures Tidy(clients) && CandidatesOk(candidates, Records(clients), applied)
      ensures forall d: nat {:trigger PendingIn(clients, d)} :: PendingIn(clients, d) == PendingIn(old(clients), d)
    {
      hide Tidy, CandidatesOk, Distinct, PendingIn, Put;
      var table := Records(clients);
      var evicted := TakeCandidate(table);
      LeastIsUnique(table, evicted);
      var st := StateOf(clients, evicted).(record := None);
      RecordDropped(clients, evicted);
      sessions := sessions - 1;
      clients := Put(clients, evicted, st);
      machine := machine.RecordClient(op, evicted, None);
    }

    /** Takes the next session to evict off the list.  The loop ends: a scan puts a current candidate first. */
    method TakeCandidate(table: Table) returns (evicted: nat)
      requires table != map[] && CandidatesOk(candidates, table, applied)
      requires forall c {:trigger table[c]} :: c in table ==> table[c].op <= applied
      modifies this`candidates
      ensures IsLeast(table, evicted) && CandidatesOk(candidates, table - {evicted}, applied)
    {
      hide CandidatesOk, IsLeast;
      while true
        invariant CandidatesOk(candidates, table, applied)
        decreases if candidates == [] then 2 else if Current(table, candidates[0]) then 1 else 3 + |candidates|
      {
        if candidates == [] {
          candidates := FindCandidates(table, applied);
        } else {
          var x := candidates[0];
          if Current(table, x) {
            FrontIsLeast(candidates, table, applied);
            PopCurrent(candidates, table, applied);
            candidates := candidates[1..];
            return x.client;
          }
          PopStale(candidates, table, applied);
          candidates := candidates[1..];
        }
      }
    }

    /** Executes the next committed entry. */
    method Execute() returns (reply: Reply)
      requires Valid() && applied < |log|
      modifies this`clients, this`candidates, this`sessions, this`applied, this`machine
      ensures Valid() && applied == old(applied) + 1
      ensures log[old(applied)].Register? ==>
                && reply.Registered? && InSession(Model().table, reply.client, reply.session) && reply.client == log[old(applied)].client
                && Admitted(lim, old(Records(clients)), Records(clients), reply.client)
      ensures Executes(lim, log, old(applied)) ==>
                var e := log[old(applied)];
                && reply.Executed? && Id(reply.client, reply.session, reply.number) == Id(e.client, e.session, e.number)
                && HasResult(Model().results, Id(e.client, e.session, e.number), reply.result)
                && machine.executed == reply.result == old(machine).executed + [e.op]
      ensures log[old(applied)].Request? && !Executes(lim, log, old(applied)) ==>
                reply == Evicted(log[old(applied)].client, log[old(applied)].session) && machine.executed == old(machine).executed
    {
      hide Good, TableOk, PendingOk, MachinesOk, Fold, Feed, Admitted;
      AfterNext(lim, log, applied);
      ghost var was := machine;
      MachinePart(lim, log, applied, machine, flushed, kept);
      var e := log[applied];
      if e.Register? {
        reply := Register(e.client);
      } else {
        reply := Request(e.client, e.session, e.number, e.answered, e.op);
      }
      MachinesNext(lim, log, applied, was, machine, flushed, kept);
      applied := applied + 1;
      TableParts(lim, clients, sessions, candidates, Model());
    }

    /** Executes a registration: opens a session for `c`, unless it has one, and makes room for it. */
    method Register(c: nat) returns (reply: Reply)
      requires Valid() && applied < |log| && log[applied] == LogEntry.Register(c)
      modifies this`clients, this`candidates, this`sessions, this`machine
      ensures TableOk(lim, clients, sessions, candidates, Feed(lim, Model(), log[applied]))
      ensures PendingOk(clients, log, applied + 1)
      ensures machine == Fed(Feed(lim, Model(), log[applied]))
      ensures Admitted(lim, old(Records(clients)), Records(clients), c)
      ensures reply.Registered? && reply.client == c && InSession(Records(clients), c, reply.session)
    {
      hide Good, PendingOk, MachinesOk, Fold, TableOk, Feed, Put, Tidy, CandidatesOk, PendingIn, Admitted;
      ghost var was, m := clients, Model();
      var op := applied + 1;
      MachinePart(lim, log, applied, machine, flushed, kept);
      StateParts(clients, c);
      TableParts(lim, clients, sessions, candidates, m);
      var st := StateOf(clients, c);
      var pending := Cleared(st.pending, Key(op, 0));
      if st.record.Some? {
        IdleTable(lim, clients, sessions, candidates, m, log[applied], pending);
        RecordedAgain(lim, m, log[applied], st.record);
        clients := Put(clients, c, st.(pending := pending));
        machine := machine.RecordClient(op, c, st.record);
        reply := Registered(c, st.record.value.session);
      } else {
        MakeRoom(op);
        var record := Record(op, 0, [], op);
        OpenedTable(lim, was, clients, sessions, candidates, m, c, pending);
        FedOpened(lim, m, c);
        clients := clients[c := ClientState(Some(record), pending)];
        machine := machine.RecordClient(op, c, Some(record));
        sessions := sessions + 1;
        reply := Registered(c, op);
      }
      PendingExecuted(lim, was, clients, log, applied);
      TableParts(lim, clients, sessions, candidates, Feed(lim, m, log[applied]));
      RegisterAdmits(lim, m, c) by { FoldOk(lim, log[..applied]); }
    }

    method MakeRoom(op: nat)
      requires Valid() && op == applied + 1
      modifies this`clients, this`candidates, this`sessions, this`machine
      ensures Records(clients) == Sessions.Evicted(lim, old(Model()).table) && sessions == |Records(clients)|
      ensures machine.executed == old(Model()).executed && machine.table == Sessions.Evicted(lim, old(Model()).table)
      ensures Tidy(clients) && CandidatesOk(candidates, Records(clients), applied)
      ensures forall d: nat {:trigger PendingIn(clients, d)} :: PendingIn(clients, d) == PendingIn(old(clients), d)
    {
      hide Good, PendingOk, MachinesOk, Fold;
      MachinePart(lim, log, applied, machine, flushed, kept);
      if sessions >= lim.clients {
        FoldOk(lim, log[..applied]);
        OpsBefore(lim, Model());
        Evict(op);
      }
    }

    /** Executes a request: in its session, as the next one, which the assertion says it is. */
    method Request(c: nat, session: nat, number: nat, answered: nat, op: Op) returns (reply: Reply)
      requires Valid() && applied < |log| && log[applied] == LogEntry.Request(c, session, number, answered, op)
      modifies this`clients, this`machine
      ensures TableOk(lim, clients, sessions, candidates, Feed(lim, Model(), log[applied]))
      ensures PendingOk(clients, log, applied + 1)
      ensures machine == Fed(Feed(lim, Model(), log[applied]))
      ensures InSession(Model().table, c, session) ==>
                && reply == Executed(c, session, number, machine.executed) && machine.executed == old(machine).executed + [op]
                && HasResult(Feed(lim, Model(), log[applied]).results, Id(c, session, number), machine.executed)
      ensures !InSession(Model().table, c, session) ==> reply == Evicted(c, session) && machine.executed == old(machine).executed
    {
      hide Good, PendingOk, MachinesOk, Fold, TableOk, Feed, Put, PendingIn;
      ghost var was, m := clients, Model();
      MachinePart(lim, log, applied, machine, flushed, kept);
      StateParts(clients, c);
      TableParts(lim, clients, sessions, candidates, m);
      var st := StateOf(clients, c);
      var pending := Cleared(st.pending, Key(session, number));
      if st.record.None? || st.record.value.session != session {
        IdleTable(lim, clients, sessions, candidates, m, log[applied], pending);
        RecordedAgain(lim, m, log[applied], st.record);
        clients := Put(clients, c, st.(pending := pending));
        machine := machine.RecordClient(applied + 1, c, st.record);
        reply := Evicted(c, session);
      } else {
        var record := st.record.value;
        InTurn(lim, log, applied);
        assert record.number + 1 == number;
        ExecutedTable(lim, clients, sessions, candidates, m, log[applied], pending);
        FedExecuted(lim, m, log[applied]);
        machine := machine.Apply(applied + 1, op);
        var result := machine.executed;
        var replies := Keep(record.replies + [result], Kept(lim, number, answered));
        record := Record(session, number, replies, applied + 1);
        clients := clients[c := ClientState(Some(record), pending)];
        machine := machine.RecordClient(applied + 1, c, Some(record));
        reply := Executed(c, session, number, result);
      }
      PendingExecuted(lim, was, clients, log, applied);
    }

    /** Appends an entry that keeps the log good. */
    method AppendToLog(e: LogEntry)
      requires Valid() && Good(lim, log + [e])
      modifies this`clients, this`log
      ensures Valid() && log == old(log) + [e]
    {
      hide Good, Fold, TableOk, MachinesOk, PendingOk, PendingIn;
      var st := StateOf(clients, e.client).(pending := Some(KeyOf(|log| + 1, e)));
      AppendedTable(lim, clients, sessions, candidates, Model(), e, |log| + 1);
      MachinesSame(lim, log, log + [e], applied, machine, flushed, kept);
      PendingAppended(clients, clients[e.client := st], log, applied, e);
      assert (log + [e])[..applied] == log[..applied];
      clients := clients[e.client := st];
      log := log + [e];
    }

    /** Replaces the log after what executed, as a view change or a state transfer does. */
    method ReplaceLog(log': Log)
      requires Valid() && Good(lim, log') && applied <= |log'| && log'[..applied] == log[..applied]
      modifies this`clients, this`log
      ensures Valid() && log == log'
    {
      hide Good, Fold, MachinesOk;
      MachinesSame(lim, log, log', applied, machine, flushed, kept);
      log := log';
      RebuildPending();
    }

    /** The state machine makes its state durable. */
    method Flush()
      requires Valid()
      modifies this`flushed
      ensures Valid() && flushed == machine
    {
      hide Good, Fold, TableOk, PendingOk;
      flushed := machine;
    }

    /** Keeps a checkpoint for replicas that fell behind, unless one is kept. */
    method KeepCheckpoint() returns (op: nat)
      requires Valid()
      modifies this`kept
      ensures Valid() && kept.Some? && kept.value.op == op && (if old(kept).Some? then kept == old(kept) else kept.value == machine)
    {
      hide Good, Fold, TableOk, PendingOk;
      if kept.None? {
        kept := Some(machine);
      }
      op := kept.value.op;
    }

    method ReleaseCheckpoint()
      requires Valid()
      modifies this`kept
      ensures Valid() && kept.None?
    {
      hide Good, Fold, TableOk, PendingOk;
      kept := None;
    }

    /** Executes what is committed. */
    method ApplyCommitted(commit: nat)
      requires Valid() && commit <= |log|
      modifies this`clients, this`candidates, this`sessions, this`applied, this`machine
      ensures Valid() && applied == Max(old(applied), commit)
    {
      hide Good, TableOk, MachinesOk, PendingOk, Fold, Feed;
      while applied < commit
        invariant Valid() && old(applied) <= applied <= Max(old(applied), commit)
      {
        var _ := Execute();
      }
    }

    /** Comes back after a crash with what the state machine made durable and the disk's log, whose entries
        up to there give way to the state machine, and executes what the disk has as committed. */
    method Restart(disk: Log, commit: nat)
      requires Valid()
      requires var log' := log[..flushed.op] + Drop(disk, flushed.op); Good(lim, log') && commit <= |log'|
      modifies this
      ensures Valid() && log == old(log[..flushed.op]) + Drop(disk, old(flushed.op))
      ensures applied == Max(old(flushed.op), commit) && flushed == old(flushed) && kept.None?
      ensures applied == old(applied) && log[..applied] == old(log[..applied]) ==>
                Records(clients) == old(Records(clients)) && machine == old(machine)
    {
      hide Good, Fold, TableOk, MachinesOk, PendingOk, PendingIn;
      ghost var was := log;
      TableParts(lim, clients, sessions, candidates, Model());
      MachinePart(lim, log, applied, machine, flushed, kept);
      FlushedPart(lim, log, applied, machine, flushed, kept);
      log := log[..flushed.op] + Drop(disk, flushed.op);
      applied, machine, kept := flushed.op, flushed, None;
      LoadClientTable();
      RebuildPending();
      Reloaded(lim, was, old(applied), flushed, Drop(disk, flushed.op), clients);
      ApplyCommitted(commit);
      TableParts(lim, clients, sessions, candidates, Model());
      MachinePart(lim, log, applied, machine, flushed, kept);
    }

    /** Replaces the state with the checkpoint `sender` keeps, which is durable before the log starts after
        it, and the log with the entries that come with it. */
    method Restore(sender: Server, entries: Log)
      requires Valid() && sender.Valid() && sender.lim == lim && sender.kept.Some? && sender.kept.value.op > applied
      requires Good(lim, sender.log[..sender.kept.value.op] + entries)
      modifies this
      ensures Valid() && log == old(sender.log[..sender.kept.value.op]) + entries && applied == old(sender.kept.value.op)
      ensures machine == flushed == old(sender.kept.value) && kept.None?
    {
      hide Good, Fold, TableOk, MachinesOk, PendingOk;
      var checkpoint := sender.kept.value;
      KeptPart(lim, sender.log, sender.applied, sender.machine, sender.flushed, sender.kept);
      log := sender.log[..checkpoint.op] + entries;
      applied, machine, flushed, kept := checkpoint.op, checkpoint, checkpoint, None;
      LoadClientTable();
      RebuildPending();
      Reloaded(lim, old(sender.log), old(sender.applied), checkpoint, entries, clients);
    }

    /** Takes the client table from the state machine. */
    method LoadClientTable()
      modifies this`clients, this`sessions, this`candidates
      ensures Records(clients) == machine.table && sessions == |machine.table| && Tidy(clients) && candidates == []
    {
      clients := map c | c in machine.table :: ClientState(Some(machine.table[c]), None);
      sessions, candidates := |machine.table|, [];
      assert Records(clients) == machine.table;
    }

    /** Rebuilds what is pending from the log after `applied`. */
    method RebuildPending()
      requires applied <= |log|
      modifies this`clients
      ensures Records(clients) == old(Records(clients)) && Tidy(clients) && PendingOk(clients, log, applied)
    {
      clients := map c | c in clients && clients[c].record.Some? :: clients[c].(pending := None);
      ghost var table := Records(clients);
      assert table == old(Records(clients));
      assert log[..applied] == log[..applied][..applied];
      var i := applied;
      while i < |log|
        invariant applied <= i <= |log| && Records(clients) == table && Tidy(clients)
        invariant PendingOk(clients, log[..i], applied)
      {
        var e := log[i];
        StateParts(clients, e.client);
        var st := StateOf(clients, e.client).(pending := Some(KeyOf(i + 1, e)));
        SetState(clients, e.client, st);
        PendingAppended(clients, clients[e.client := st], log[..i], applied, e);
        assert log[..i] + [e] == log[..i + 1];
        clients := clients[e.client := st];
        i := i + 1;
      }
      assert log[..i] == log;
    }

    /** A client asks for a session: one it has is the answer, one in the log is waited for. */
    method OnRegister(leads: bool, c: nat) returns (reply: Option<Reply>)
      requires Valid()
      modifies this`clients, this`log
      ensures Valid() && (log == old(log) || log == old(log) + [LogEntry.Register(c)])
      ensures log != old(log) <==> leads && c !in Model().table && !Registering(old(log), applied, c)
      ensures reply.Some? <==> leads && c in Model().table
      ensures reply.Some? ==> reply.value == Registered(c, Model().table[c].session)
    {
      if !leads {
        return None;
      }
      StateParts(clients, c);
      PendingPart(clients, log, applied, c);
      RegisteringPends(lim, log, applied, c);
      var st := StateOf(clients, c);
      if st.record.Some? {
        return Some(Registered(c, st.record.value.session));
      }
      if st.pending.Some? && st.pending.value.number == 0 {
        return None;
      }
      AppendRegisterGood(lim, log, c);
      AppendToLog(LogEntry.Register(c));
      assert log[..applied] == old(log)[..applied];
      reply := None;
    }

    /** A client sends a request: a re-send is answered while its result is kept, the session's next
        request is appended, and one of a session that is gone is told so. */
    method OnRequest(leads: bool, c: nat, session: nat, number: nat, answered: nat, op: Op) returns (reply: Option<Reply>)
      requires Valid()
      modifies this`clients, this`log
      ensures Valid() && (log == old(log) || log == old(log) + [LogEntry.Request(c, session, number, answered, op)])
      ensures log != old(log) <==> leads && Accepts(lim, old(log), applied, c, session, number)
      ensures reply.Some? ==> leads && (reply.value.Executed? || reply.value == Evicted(c, session))
      ensures reply.Some? && reply.value.Executed? ==>
                && Id(reply.value.client, reply.value.session, reply.value.number) == Id(c, session, number)
                && HasResult(Model().results, Id(c, session, number), reply.value.result)
      ensures leads && InSession(Model().table, c, session) && number <= Model().table[c].number < number + |Model().table[c].replies| ==>
                reply.Some? && reply.value.Executed?
      ensures reply == Some(Evicted(c, session)) <==> leads && session <= applied && !InSession(Model().table, c, session)
    {
      hide Good, Fold, PendingOk, CandidatesOk, Tidy;
      if !leads {
        return None;
      }
      StateParts(clients, c);
      PendingPart(clients, log, applied, c);
      var st := StateOf(clients, c);
      if st.record.None? || st.record.value.session != session {
        return if session <= applied then Some(Evicted(c, session)) else None;
      }
      var record := st.record.value;
      if number <= record.number {
        var index := |record.replies| - (record.number - number + 1);
        if index < 0 {
          return None;
        }
        RecordPart(lim, log, applied, c, number);
        return Some(Executed(c, session, number, record.replies[index]));
      }
      if st.pending.Some? && st.pending.value.session > session {
        return None;
      }
      var latest := if st.pending.Some? && st.pending.value.session == session then st.pending.value.number else record.number;
      if number != latest + 1 || number > record.number + lim.inFlight {
        return None;
      }
      AppendRequestGood(lim, log, applied, c, session, number, answered, op);
      AppendToLog(LogEntry.Request(c, session, number, answered, op));
      assert log[..applied] == old(log)[..applied];
      reply := None;
    }
  }

  lemma TableParts(lim: Limits, clients: map<nat, ClientState>, sessions: nat, list: seq<Candidate>, m: Model)
    requires TableOk(lim, clients, sessions, list, m)
    ensures Records(clients) == m.table
  {
  }

  /** The client's part of the table is set, and every other client's is as it was. */
  ghost predicate OnlyPending(clients: map<nat, ClientState>, clients': map<nat, ClientState>, c: nat, pending: Option<Key>) {
    && PendingIn(clients', c) == pending
    && forall d: nat {:trigger PendingIn(clients', d)} :: d != c ==> PendingIn(clients', d) == PendingIn(clients, d)
  }

  /** An entry that executes nothing. */
  lemma IdleTable(lim: Limits, clients: map<nat, ClientState>, sessions: nat, list: seq<Candidate>, m: Model, e: LogEntry, pending: Option<Key>)
    requires TableOk(lim, clients, sessions, list, m)
    requires if e.Register? then e.client in m.table else !InSession(m.table, e.client, e.session)
    ensures var clients' := Put(clients, e.client, StateOf(clients, e.client).(pending := pending));
            && TableOk(lim, clients', sessions, list, Feed(lim, m, e)) && OnlyPending(clients, clients', e.client, pending)
    ensures Feed(lim, m, e).executed == m.executed && Feed(lim, m, e).table == m.table
  {
    hide Put, Tidy;
    StateParts(clients, e.client);
    PutOk(clients, e.client, StateOf(clients, e.client).(pending := pending));
    ListedLater(list, m.table, m.fed);
  }

  /** An entry that is appended. */
  lemma AppendedTable(lim: Limits, clients: map<nat, ClientState>, sessions: nat, list: seq<Candidate>, m: Model, e: LogEntry, op: nat)
    requires TableOk(lim, clients, sessions, list, m)
    ensures var clients' := clients[e.client := StateOf(clients, e.client).(pending := Some(KeyOf(op, e)))];
            TableOk(lim, clients', sessions, list, m) && OnlyPending(clients, clients', e.client, Some(KeyOf(op, e)))
  {
    hide Tidy;
    StateParts(clients, e.client);
    SetState(clients, e.client, StateOf(clients, e.client).(pending := Some(KeyOf(op, e))));
  }

  /** A registration that opens a session, room having been made for it. */
  lemma OpenedTable(lim: Limits, was: map<nat, ClientState>, clients: map<nat, ClientState>, sessions: nat, list: seq<Candidate>,
                    m: Model, c: nat, pending: Option<Key>)
    requires Records(clients) == Sessions.Evicted(lim, m.table) && sessions == |Records(clients)| && Tidy(clients) && c !in m.table
    requires CandidatesOk(list, Records(clients), m.fed)
    requires forall d: nat {:trigger PendingIn(clients, d)} :: PendingIn(clients, d) == PendingIn(was, d)
    ensures var clients' := clients[c := ClientState(Some(Record(m.fed + 1, 0, [], m.fed + 1)), pending)];
            var m' := Feed(lim, m, LogEntry.Register(c));
            && TableOk(lim, clients', sessions + 1, list, m') && OnlyPending(was, clients', c, pending)
            && m'.executed == m.executed && InSession(m'.table, c, m.fed + 1)
  {
    hide Sessions.Evicted, Tidy;
    var r := Record(m.fed + 1, 0, [], m.fed + 1);
    LaterCovered(list, Records(clients), m.fed, c, r);
    SizeAfter(Records(clients), c, r);
    SetState(clients, c, ClientState(Some(r), pending));
    assert c !in Records(clients) by {
      if c in Records(clients) {
        EvictedFrom(lim, m.table, c);
      }
    }
  }

  /** A request that executes. */
  lemma ExecutedTable(lim: Limits, clients: map<nat, ClientState>, sessions: nat, list: seq<Candidate>, m: Model, e: LogEntry, pending: Option<Key>)
    requires TableOk(lim, clients, sessions, list, m) && e.Request? && InSession(m.table, e.client, e.session)
    requires e.number == m.table[e.client].number + 1
    ensures var m' := Feed(lim, m, e);
            var replies := Keep(m.table[e.client].replies + [m.executed + [e.op]], Kept(lim, e.number, e.answered));
            var clients' := clients[e.client := ClientState(Some(Record(e.session, e.number, replies, m.fed + 1)), pending)];
            && TableOk(lim, clients', sessions, list, m') && OnlyPending(clients, clients', e.client, pending)
            && m'.executed == m.executed + [e.op] && HasResult(m'.results, Id(e.client, e.session, e.number), m'.executed)
  {
    hide Tidy, Keep, Kept;
    var r := Feed(lim, m, e).table[e.client];
    LaterCovered(list, m.table, m.fed, e.client, r);
    SizeAfter(m.table, e.client, r);
    SetState(clients, e.client, ClientState(Some(r), pending));
  }

  /** A session that goes, and what is pending of its client stays. */
  lemma RecordDropped(clients: map<nat, ClientState>, c: nat)
    requires Tidy(clients) && c in Records(clients)
    ensures var clients' := Put(clients, c, StateOf(clients, c).(record := None));
            && Tidy(clients') && Records(clients') == Records(clients) - {c} && |Records(clients')| == |Records(clients)| - 1
            && forall d: nat {:trigger PendingIn(clients', d)} :: PendingIn(clients', d) == PendingIn(clients, d)
  {
    hide Tidy, Put;
    StateParts(clients, c);
    PutOk(clients, c, StateOf(clients, c).(record := None));
    var table := Records(clients);
    assert (table - {c}).Keys == table.Keys - {c};
    assert |(table - {c}).Keys| == |table - {c}| && |table.Keys| == |table|;
  }

  lemma PendingPart(clients: map<nat, ClientState>, log: Log, applied: nat, c: nat)
    requires PendingOk(clients, log, applied)
    ensures PendingIn(clients, c) == PendingOf(log, applied, c)
  {
  }

  lemma ListedLater(list: seq<Candidate>, table: Table, applied: nat)
    requires CandidatesOk(list, table, applied)
    ensures CandidatesOk(list, table, applied + 1)
  {
  }

  lemma OpsBefore(lim: Limits, m: Model)
    requires ModelOk(lim, m)
    ensures forall c {:trigger m.table[c]} :: c in m.table ==> m.table[c].op <= m.fed
  {
    forall c | c in m.table
      ensures m.table[c].op <= m.fed
    {
      SessionPart(lim, m, c);
    }
  }

  /** A request that executes in a good log is its session's next. */
  lemma InTurn(lim: Limits, log: Log, k: nat)
    requires Good(lim, log) && k < |log|
    ensures Executes(lim, log, k) ==> After(lim, log, k).table[log[k].client].number + 1 == log[k].number
  {
    AfterAll(lim, log);
    SkippedStays(lim, log, k + 1, |log|);
    AfterNext(lim, log, k);
  }

  lemma RecordPart(lim: Limits, log: Log, applied: nat, c: nat, n: nat)
    requires lim.Valid() && applied <= |log| && c in After(lim, log, applied).table
    requires var r := After(lim, log, applied).table[c]; r.number - |r.replies| < n <= r.number
    ensures var m := After(lim, log, applied);
            var r := m.table[c];
            var index := |r.replies| - (r.number - n + 1);
            0 <= index < |r.replies| && HasResult(m.results, Id(c, r.session, n), r.replies[index])
  {
    hide Fold, ModelOk, RecordsOk;
    FoldOk(lim, log[..applied]);
    RecordsPart(lim, After(lim, log, applied));
    ReplyAt(lim, After(lim, log, applied), c, n);
  }
}
