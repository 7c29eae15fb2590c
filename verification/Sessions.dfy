/** What a log does, fed in order: which requests execute and with what result, which sessions it
    opens and which it evicts.  And which logs primaries build. */
module Sessions {
  import opened Types

  /** The most sessions the client table holds, and the most requests a client has in flight. */
  datatype Limits = Limits(clients: nat, inFlight: nat) {
    predicate Valid() { clients > 0 && inFlight > 0 }
  }

  /** A result is a function of the ops executed up to it, and stands for them. */
  type Output = seq<Op>

  /** What the client table keeps of a session: the op that opened it, its latest executed request, the
      results of the last ones, and the op of its latest executed entry. */
  datatype Record = Record(session: nat, number: nat, replies: seq<Output>, op: nat)

  type Table = map<nat, Record>

  /** A request, by client, session and number. */
  datatype Id = Id(client: nat, session: nat, number: nat)

  /** What the entries fed came to.  `skipped` says that a request executed out of turn. */
  datatype Model = Model(fed: nat, table: Table, executed: seq<Op>, results: map<Id, Output>, skipped: bool)

  const Start := Model(0, map[], [], map[], false)

  // ---------------------------------------------------------------------------
  // The table

  /** The session of client `c` is the one whose latest entry executed earliest. */
  ghost predicate IsLeast(table: Table, c: nat) {
    c in table && forall d {:trigger table[d]} :: d in table ==> table[c].op <= table[d].op
  }

  lemma {:induction false} LeastExists(table: Table)
    requires table != map[]
    ensures exists c :: IsLeast(table, c)
    decreases |table|
  {
    var d :| d in table;
    var rest := table - {d};
    if rest == map[] {
      assert table.Keys == {d} by {
        assert forall x :: x in table && x != d ==> x in rest;
      }
      assert IsLeast(table, d);
    } else {
      assert |rest| < |table| by {
        assert rest.Keys == table.Keys - {d};
        assert |rest.Keys| == |rest| && |table.Keys| == |table|;
      }
      LeastExists(rest);
      var c :| IsLeast(rest, c);
      var least := if table[d].op <= table[c].op then d else c;
      forall x | x in table
        ensures table[least].op <= table[x].op
      {
        if x != d {
          assert x in rest && rest[x] == table[x];
        }
      }
      assert IsLeast(table, least);
    }
  }

  ghost function Least(table: Table): (c: nat)
    requires table != map[]
    ensures IsLeast(table, c)
  {
    LeastExists(table);
    var c :| IsLeast(table, c);
    c
  }

  /** How many results the session keeps once request `number` executed, which its client sent when it
      had the replies up to `answered`. */
  function Kept(lim: Limits, number: nat, answered: nat): int {
    Max(1, Min(Max(0, number - answered), lim.inFlight))
  }

  /** The last `k` of `s`. */
  function Keep(s: seq<Output>, k: int): seq<Output> {
    if 0 <= k < |s| then s[|s| - k..] else s
  }

  /** Makes room for a session. */
  ghost function Evicted(lim: Limits, table: Table): Table {
    if |table| >= lim.clients && table != map[] then table - {Least(table)} else table
  }

  predicate InSession(table: Table, c: nat, session: nat) { c in table && table[c].session == session }

  /** The model after one more entry. */
  ghost function Feed(lim: Limits, m: Model, e: LogEntry): Model {
    var op := m.fed + 1;
    match e
    case Register(c) =>
      if c in m.table then m.(fed := op)
      else m.(fed := op, table := Evicted(lim, m.table)[c := Record(op, 0, [], op)])
    case Request(c, s, n, answered, o) =>
      if !InSession(m.table, c, s) then m.(fed := op)
      else if n != m.table[c].number + 1 then m.(fed := op, skipped := true)
      else
        var executed := m.executed + [o];
        var replies := Keep(m.table[c].replies + [executed], Kept(lim, n, answered));
        m.(fed := op, table := m.table[c := Record(s, n, replies, op)], executed := executed,
           results := m.results[Id(c, s, n) := executed])
  }

  ghost function Fold(lim: Limits, log: Log): (m: Model)
    ensures m.fed == |log|
  {
    if log == [] then Start else Feed(lim, Fold(lim, log[..|log| - 1]), log[|log| - 1])
  }

  /** The model after the first `k` entries. */
  ghost function After(lim: Limits, log: Log, k: nat): (m: Model)
    requires k <= |log|
    ensures m.fed == k
  {
    Fold(lim, log[..k])
  }

  lemma AfterNext(lim: Limits, log: Log, k: nat)
    requires k < |log|
    ensures After(lim, log, k + 1) == Feed(lim, After(lim, log, k), log[k])
  {
    assert log[..k + 1][..k] == log[..k];
  }

  lemma AfterAll(lim: Limits, log: Log)
    ensures After(lim, log, |log|) == Fold(lim, log)
  {
    assert log[..|log|] == log;
  }

  // ---------------------------------------------------------------------------
  // What the table holds

  /** The results a record keeps are those of its last requests, in order. */
  ghost predicate RepliesOk(results: map<Id, Output>, c: nat, r: Record) {
    |r.replies| <= r.number &&
    forall i {:trigger r.replies[i]} :: 0 <= i < |r.replies| ==> HasResult(results, IdOf(c, r, i), r.replies[i])
  }

  /** The request whose result is at index `i` of a record. */
  function IdOf(c: nat, r: Record, i: nat): Id
    requires i < |r.replies| <= r.number
  {
    Id(c, r.session, r.number - |r.replies| + 1 + i)
  }

  ghost predicate HasResult(results: map<Id, Output>, id: Id, x: Output) { id in results && results[id] == x }

  ghost predicate RecordOk(lim: Limits, fed: nat, results: map<Id, Output>, c: nat, r: Record) {
    && 1 <= r.session <= r.op <= fed
    && |r.replies| <= lim.inFlight
    && (r.number > 0 ==> |r.replies| > 0)
    && RepliesOk(results, c, r)
  }

  ghost predicate RecordsOk(lim: Limits, m: Model) {
    forall c {:trigger m.table[c]} :: c in m.table ==> RecordOk(lim, m.fed, m.results, c, m.table[c])
  }

  /** Results are of requests of sessions opened, and none of a request a live session has yet to execute. */
  ghost predicate ResultsOk(m: Model) {
    forall id {:trigger id in m.results} :: id in m.results ==>
      && 1 <= id.session <= m.fed && id.number >= 1
      && (InSession(m.table, id.client, id.session) ==> id.number <= m.table[id.client].number)
  }

  /** No two sessions executed their latest entry at the same op. */
  ghost predicate Distinct(table: Table) {
    forall c, d {:trigger table[c], table[d]} :: c in table && d in table && table[c].op == table[d].op ==> c == d
  }

  ghost predicate ModelOk(lim: Limits, m: Model) {
    |m.table| <= lim.clients && Distinct(m.table) && ResultsOk(m) && RecordsOk(lim, m)
  }

  lemma LeastIsUnique(table: Table, c: nat)
    requires Distinct(table) && IsLeast(table, c)
    ensures table != map[] && Least(table) == c
  {
  }

  lemma EvictedOk(lim: Limits, m: Model)
    requires lim.Valid() && ModelOk(lim, m)
    ensures |Evicted(lim, m.table)| < lim.clients
    ensures forall c {:trigger Evicted(lim, m.table)[c]} :: c in Evicted(lim, m.table) ==> c in m.table && Evicted(lim, m.table)[c] == m.table[c]
  {
    if |m.table| >= lim.clients {
      var rest := m.table - {Least(m.table)};
      assert rest.Keys == m.table.Keys - {Least(m.table)};
      assert |rest.Keys| == |rest| && |m.table.Keys| == |m.table|;
    }
  }

  /** A session whose latest entry is the one fed now differs from the others. */
  lemma DistinctLater(lim: Limits, m: Model, t: Table, c: nat, r: Record)
    requires Distinct(m.table) && RecordsOk(lim, m) && r.op == m.fed + 1
    requires forall d {:trigger t[d]} :: d in t ==> d in m.table && t[d] == m.table[d]
    ensures Distinct(t[c := r])
  {
    hide RepliesOk;
    var t' := t[c := r];
    forall a, b | a in t' && b in t' && t'[a].op == t'[b].op
      ensures a == b
    {
      if a != c {
        assert t[a] == m.table[a] && RecordOk(lim, m.fed, m.results, a, m.table[a]);
      }
      if b != c {
        assert t[b] == m.table[b] && RecordOk(lim, m.fed, m.results, b, m.table[b]);
      }
    }
  }

  lemma SizeAfter(t: Table, c: nat, r: Record)
    ensures |t[c := r]| == |t| + (if c in t then 0 else 1)
  {
    assert t[c := r].Keys == t.Keys + {c};
    assert |t[c := r].Keys| == |t[c := r]| && |t.Keys| == |t|;
  }

  /** More entries fed and more results leave a record as it is. */
  lemma RecordLater(lim: Limits, m: Model, c: nat, results: map<Id, Output>)
    requires RecordsOk(lim, m) && c in m.table
    requires forall id {:trigger id in results} {:trigger id in m.results} :: id in m.results ==> id in results && results[id] == m.results[id]
    ensures RecordOk(lim, m.fed + 1, results, c, m.table[c])
  {
    var r := m.table[c];
    assert RecordOk(lim, m.fed, m.results, c, r);
    forall i | 0 <= i < |r.replies|
      ensures HasResult(results, IdOf(c, r, i), r.replies[i])
    {
      assert HasResult(m.results, IdOf(c, r, i), r.replies[i]);
    }
  }

  lemma RegisterOk(lim: Limits, m: Model, c: nat)
    requires lim.Valid() && ModelOk(lim, m) && c !in m.table
    ensures ModelOk(lim, Feed(lim, m, Register(c)))
  {
    hide Evicted, RecordOk;
    EvictedOk(lim, m);
    var t := Evicted(lim, m.table);
    var r := Record(m.fed + 1, 0, [], m.fed + 1);
    var m' := Feed(lim, m, Register(c));
    SizeAfter(t, c, r);
    DistinctLater(lim, m, t, c, r);
    forall d | d in m'.table
      ensures RecordOk(lim, m'.fed, m'.results, d, m'.table[d])
    {
      if d == c {
        NewSessionOk(lim, m.fed + 1, m.results, c);
      } else {
        assert t[d] == m.table[d];
        RecordLater(lim, m, d, m.results);
      }
    }
    forall id | id in m'.results
      ensures InSession(m'.table, id.client, id.session) ==> id.number <= m'.table[id.client].number
    {
      assert id.client != c && id.client in t ==> t[id.client] == m.table[id.client];
    }
  }

  lemma NewSessionOk(lim: Limits, op: nat, results: map<Id, Output>, c: nat)
    requires op >= 1
    ensures RecordOk(lim, op, results, c, Record(op, 0, [], op))
  {
  }

  lemma ExecuteOk(lim: Limits, m: Model, c: nat, answered: nat, o: Op)
    requires lim.Valid() && ModelOk(lim, m) && c in m.table
    ensures var r := m.table[c]; ModelOk(lim, Feed(lim, m, Request(c, r.session, r.number + 1, answered, o)))
    ensures var r := m.table[c]; Id(c, r.session, r.number + 1) !in m.results
  {
    hide RecordOk;
    var r := m.table[c];
    var m' := Feed(lim, m, Request(c, r.session, r.number + 1, answered, o));
    SizeAfter(m.table, c, m'.table[c]);
    DistinctLater(lim, m, m.table, c, m'.table[c]);
    NewRecordOk(lim, m, c, answered, o);
    forall d | d in m'.table
      ensures RecordOk(lim, m'.fed, m'.results, d, m'.table[d])
    {
      if d != c {
        RecordLater(lim, m, d, m'.results);
      }
    }
    forall id | id in m'.results
      ensures 1 <= id.session <= m'.fed && id.number >= 1
      ensures InSession(m'.table, id.client, id.session) ==> id.number <= m'.table[id.client].number
    {
      if id == Id(c, r.session, r.number + 1) {
        SessionPart(lim, m, c);
      }
    }
  }

  lemma SessionPart(lim: Limits, m: Model, c: nat)
    requires RecordsOk(lim, m) && c in m.table
    ensures 1 <= m.table[c].session <= m.table[c].op <= m.fed
  {
    assert RecordOk(lim, m.fed, m.results, c, m.table[c]);
  }

  /** One more result, and the oldest dropped. */
  lemma KeepReplies(results: map<Id, Output>, c: nat, r: Record, x: Output, k: int, op: nat)
    requires RepliesOk(results, c, r) && k >= 1
    ensures RepliesOk(results[Id(c, r.session, r.number + 1) := x], c, Record(r.session, r.number + 1, Keep(r.replies + [x], k), op))
  {
    var all := r.replies + [x];
    var r' := Record(r.session, r.number + 1, Keep(all, k), op);
    var dropped := |all| - |r'.replies|;
    forall i | 0 <= i < |r'.replies|
      ensures HasResult(results[Id(c, r.session, r.number + 1) := x], IdOf(c, r', i), r'.replies[i])
    {
      assert r'.replies[i] == all[dropped + i];
      if dropped + i < |r.replies| {
        assert HasResult(results, IdOf(c, r, dropped + i), r.replies[dropped + i]);
      }
    }
  }

  lemma NewRecordOk(lim: Limits, m: Model, c: nat, answered: nat, o: Op)
    requires lim.Valid() && RecordsOk(lim, m) && c in m.table
    ensures var r := m.table[c];
            var m' := Feed(lim, m, Request(c, r.session, r.number + 1, answered, o));
            RecordOk(lim, m'.fed, m'.results, c, m'.table[c])
  {
    hide RepliesOk;
    var r := m.table[c];
    assert RecordOk(lim, m.fed, m.results, c, r);
    hide RecordsOk;
    KeepReplies(m.results, c, r, m.executed + [o], Kept(lim, r.number + 1, answered), m.fed + 1);
  }

  /** An entry that executes nothing leaves everything but the count of entries. */
  lemma IdleOk(lim: Limits, m: Model, m': Model)
    requires ModelOk(lim, m) && m' == m.(fed := m.fed + 1, skipped := m'.skipped)
    ensures ModelOk(lim, m')
  {
    hide RecordOk;
    forall c | c in m'.table
      ensures RecordOk(lim, m'.fed, m'.results, c, m'.table[c])
    {
      RecordLater(lim, m, c, m.results);
    }
  }

  lemma FeedOk(lim: Limits, m: Model, e: LogEntry)
    requires lim.Valid() && ModelOk(lim, m)
    ensures ModelOk(lim, Feed(lim, m, e))
  {
    hide ModelOk;
    match e
    case Register(c) =>
      if c in m.table {
        IdleOk(lim, m, Feed(lim, m, e));
      } else {
        RegisterOk(lim, m, c);
      }
    case Request(c, s, n, answered, o) =>
      if InSession(m.table, c, s) && n == m.table[c].number + 1 {
        ExecuteOk(lim, m, c, answered, o);
      } else {
        IdleOk(lim, m, Feed(lim, m, e));
      }
  }

  /** Every log leaves a table within its limit, whose sessions keep the results of their last requests. */
  lemma {:induction false} FoldOk(lim: Limits, log: Log)
    requires lim.Valid()
    ensures ModelOk(lim, Fold(lim, log))
  {
    hide ModelOk, Feed;
    if log == [] {
      StartOk(lim);
    } else {
      FoldOk(lim, log[..|log| - 1]);
      FeedOk(lim, Fold(lim, log[..|log| - 1]), log[|log| - 1]);
    }
  }

  lemma StartOk(lim: Limits)
    ensures ModelOk(lim, Start)
  {
  }
}
