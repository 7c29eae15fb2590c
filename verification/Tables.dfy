/** What the reference model makes of a log, said of the log: which sessions it leaves open, what of a
    session it keeps, what executed, and which request a primary takes next. */
module Tables {
  import opened Types
  import opened Sessions
  import opened Ordering
  import Quorums

  // ---------------------------------------------------------------------------
  // Registrations

  /** The table `t'` that a registration of client `c` makes of `t`: a client with a session keeps it;
      with room for one more every other session stays as it is; with none exactly one goes, the one
      whose latest entry executed earliest. */
  ghost predicate Admitted(lim: Limits, t: Table, t': Table, c: nat) {
    && c in t'
    && if c in t then t' == t
       else if |t| < lim.clients then AllBut(t, t', {c})
       else exists least: nat :: IsLeast(t, least) && least !in t' && AllBut(t, t', {c, least})
  }

  /** The tables agree on every client but those. */
  ghost predicate AllBut(t: Table, t': Table, but: set<nat>) {
    forall d: nat {:trigger d in t} {:trigger d in t'} :: d !in but ==> (d in t <==> d in t') && (d in t ==> t'[d] == t[d])
  }

  lemma RegisterAdmits(lim: Limits, m: Model, c: nat)
    requires lim.Valid() && |m.table| <= lim.clients
    ensures Admitted(lim, m.table, Feed(lim, m, Register(c)).table, c)
  {
    var t' := Feed(lim, m, Register(c)).table;
    if c !in m.table && |m.table| >= lim.clients {
      assert m.table != map[];
      var least := Least(m.table);
      assert IsLeast(m.table, least) && least !in t' && AllBut(m.table, t', {c, least});
    }
  }

  /** Client `c` first registers at op `s`. */
  ghost predicate FirstAt(log: Log, c: nat, s: nat) {
    1 <= s <= |log| && log[s - 1] == Register(c) && forall x {:trigger log[x]} :: 0 <= x < s - 1 ==> log[x] != Register(c)
  }

  function Registrars(log: Log): set<nat> { set e | e in log && e.Register? :: e.client }

  lemma RegistrarsNext(log: Log)
    requires log != []
    ensures var rest, e := log[..|log| - 1], log[|log| - 1];
            Registrars(log) == if e.Register? then Registrars(rest) + {e.client} else Registrars(rest)
  {
    var rest, e := log[..|log| - 1], log[|log| - 1];
    assert log == rest + [e];
  }

  /** An entry opens no session but one for a client that registers, with its own number, and closes none
      while there is room. */
  lemma FeedSessions(lim: Limits, m: Model, e: LogEntry)
    requires lim.Valid() && (e.Register? && e.client !in m.table ==> |m.table| < lim.clients)
    ensures var t, t' := m.table, Feed(lim, m, e).table;
            && t'.Keys == (if e.Register? then t.Keys + {e.client} else t.Keys)
            && forall c {:trigger t'[c]} :: c in t' ==>
                 if c in t then t'[c].session == t[c].session else e == Register(c) && t'[c].session == m.fed + 1
  {
    var t' := Feed(lim, m, e).table;
    if e.Register? && e.client !in m.table {
      assert t' == m.table[e.client := Record(m.fed + 1, 0, [], m.fed + 1)];
    }
  }

  /** A log in which no more clients register than there is room for leaves each of them the session of
      its first registration, and no other session. */
  lemma {:induction false} NoneEvicted(lim: Limits, log: Log)
    requires lim.Valid() && |Registrars(log)| <= lim.clients
    ensures Fold(lim, log).table.Keys == Registrars(log)
    ensures forall c {:trigger Fold(lim, log).table[c]} :: c in Fold(lim, log).table ==> FirstAt(log, c, Fold(lim, log).table[c].session)
  {
    hide Feed, FirstAt, Registrars;
    if log == [] {
      NoRegistrars();
    } else {
      var rest, e := log[..|log| - 1], log[|log| - 1];
      RegistrarsNext(log);
      Quorums.SubsetCount(Registrars(rest), Registrars(log));
      NoneEvicted(lim, rest);
      var m := Fold(lim, rest);
      RoomFor(lim, m, Registrars(rest), e);
      FeedSessions(lim, m, e);
      forall c | c in Fold(lim, log).table
        ensures FirstAt(log, c, Fold(lim, log).table[c].session)
      {
        assert log == rest + [e];
        if c in m.table {
          FirstStays(rest, e, c, m.table[c].session);
        } else {
          FirstNow(rest, c);
        }
      }
    }
  }

  lemma NoRegistrars()
    ensures Registrars([]) == {}
  {
  }

  lemma RoomFor(lim: Limits, m: Model, registrars: set<nat>, e: LogEntry)
    requires m.table.Keys == registrars && (e.Register? ==> |registrars + {e.client}| <= lim.clients)
    ensures e.Register? && e.client !in m.table ==> |m.table| < lim.clients
  {
    assert |m.table.Keys| == |m.table|;
  }

  lemma FirstNow(log: Log, c: nat)
    requires c !in Registrars(log)
    ensures FirstAt(log + [Register(c)], c, |log| + 1)
  {
    forall x | 0 <= x < |log|
      ensures log[x] != Register(c)
    {
      assert log[x] in log;
    }
  }

  lemma FirstStays(rest: Log, e: LogEntry, c: nat, s: nat)
    requires FirstAt(rest, c, s)
    ensures FirstAt(rest + [e], c, s)
  {
  }

  // ---------------------------------------------------------------------------
  // Executions

  /** The entry at index `k` executes as a request of session `s` of client `c`. */
  ghost predicate ExecutesOf(lim: Limits, log: Log, k: nat, c: nat, s: nat) {
    Executes(lim, log, k) && log[k].client == c && log[k].session == s
  }

  /** Of the first `k` entries that of op `op` is the last to open session `s` of client `c` or to execute in it. */
  ghost predicate LatestOf(lim: Limits, log: Log, k: nat, c: nat, s: nat, op: nat) {
    && 1 <= s <= op <= k <= |log|
    && (op == s || ExecutesOf(lim, log, op - 1, c, s))
    && forall j: nat {:trigger ExecutesOf(lim, log, j, c, s)} :: op <= j < k ==> !ExecutesOf(lim, log, j, c, s)
  }

  /** A record has the op of its session's latest entry, by which sessions are evicted. */
  lemma {:induction false} LatestOp(lim: Limits, log: Log, k: nat, c: nat)
    requires lim.Valid() && k <= |log| && !After(lim, log, k).skipped && c in After(lim, log, k).table
    ensures var r := After(lim, log, k).table[c]; LatestOf(lim, log, k, c, r.session, r.op)
  {
    hide Fold, ModelOk, Feed, After;
    var r := After(lim, log, k).table[c];
    SessionBefore(lim, log, k, c, r.session);
    AfterNext(lim, log, k - 1);
    var m, e := After(lim, log, k - 1), log[k - 1];
    FoldOk(lim, log[..k - 1]);
    FoldIsAfter(lim, log, k - 1);
    if r.session == k {
      FeedOpens(lim, m, e, c);
      OpenedNow(lim, m, e, c);
    } else {
      SameSession(lim, m, e, c);
      SkippedStays(lim, log, k - 1, k);
      LatestOp(lim, log, k - 1, c);
      FeedLatest(lim, m, e, c);
    }
  }

  lemma OpenedNow(lim: Limits, m: Model, e: LogEntry, c: nat)
    requires ModelOk(lim, m) && e == Register(c) && InSession(Feed(lim, m, e).table, c, m.fed + 1)
    ensures Feed(lim, m, e).table[c].op == m.fed + 1
  {
    if c in m.table {
      SessionPart(lim, m, c);
    }
  }

  lemma FeedLatest(lim: Limits, m: Model, e: LogEntry, c: nat)
    requires c in m.table && c in Feed(lim, m, e).table && Feed(lim, m, e).table[c].session == m.table[c].session
    requires m.table[c].session <= m.fed && !Feed(lim, m, e).skipped
    ensures var mine := e.Request? && e.client == c && e.session == m.table[c].session;
            Feed(lim, m, e).table[c].op == if mine then m.fed + 1 else m.table[c].op
  {
    hide Evicted;
    if c in Evicted(lim, m.table) {
      EvictedFrom(lim, m.table, c);
    }
  }

  /** The ops of the requests that execute, in order. */
  ghost function Ops(lim: Limits, log: Log, k: nat): seq<Op>
    requires k <= |log|
  {
    if k == 0 then [] else Ops(lim, log, k - 1) + (if Executes(lim, log, k - 1) then [log[k - 1].op] else [])
  }

  /** The state machine runs exactly the requests that execute, and the result of each stands for the ops
      up to it.  Of results no more are kept than the client may still want. */
  lemma {:induction false} RunsRequests(lim: Limits, log: Log, k: nat)
    requires lim.Valid() && k <= |log| && !After(lim, log, k).skipped
    ensures After(lim, log, k).executed == Ops(lim, log, k)
    ensures k > 0 && Executes(lim, log, k - 1) ==>
              var e, m := log[k - 1], After(lim, log, k);
              && e.client in m.table && HasResult(m.results, Id(e.client, e.session, e.number), Ops(lim, log, k))
              && 1 <= |m.table[e.client].replies| <= Max(1, e.number - e.answered)
  {
    hide Fold, After;
    if k == 0 {
      NothingRan(lim, log);
    } else {
      SkippedStays(lim, log, k - 1, k);
      RunsRequests(lim, log, k - 1);
      AfterNext(lim, log, k - 1);
    }
  }

  lemma NothingRan(lim: Limits, log: Log)
    ensures After(lim, log, 0).executed == []
  {
  }

  // ---------------------------------------------------------------------------
  // The next request

  ghost predicate RequestOf(e: LogEntry, c: nat, s: nat) { e.Request? && e.client == c && e.session == s }

  /** Request `n` of session `s` of client `c` is the next: all before it are in the log, and none from it on. */
  ghost predicate IsNext(log: Log, c: nat, s: nat, n: nat) {
    && n >= 1
    && (forall x {:trigger log[x]} :: 0 <= x < |log| && RequestOf(log[x], c, s) ==> log[x].number < n)
    && (n > 1 ==> exists x :: 0 <= x < |log| && RequestOf(log[x], c, s) && log[x].number == n - 1)
  }

  /** The last entry of client `c` after the first `applied`, if any, is a request of session `s`. */
  ghost predicate LastOf(log: Log, applied: nat, c: nat, s: nat) {
    forall x {:trigger log[x]} :: applied <= x < |log| && log[x].client == c && !RequestOf(log[x], c, s) ==>
      exists y :: x < y < |log| && log[y].client == c
  }

  /** The last request executed in a session is in the log. */
  lemma {:induction false} NumberInLog(lim: Limits, log: Log, k: nat, c: nat)
    requires lim.Valid() && k <= |log| && !After(lim, log, k).skipped && c in After(lim, log, k).table
    requires After(lim, log, k).table[c].number > 0
    ensures var r := After(lim, log, k).table[c]; exists x :: 0 <= x < k && RequestOf(log[x], c, r.session) && log[x].number == r.number
  {
    hide Fold, ModelOk, Feed, After;
    var r := After(lim, log, k).table[c];
    SessionBefore(lim, log, k, c, r.session);
    AfterNext(lim, log, k - 1);
    var m, e := After(lim, log, k - 1), log[k - 1];
    FoldOk(lim, log[..k - 1]);
    FoldIsAfter(lim, log, k - 1);
    if r.session == k {
      FeedOpens(lim, m, e, c);
    } else {
      SameSession(lim, m, e, c);
      SkippedStays(lim, log, k - 1, k);
      FeedCounts(lim, m, e, c);
      if RequestOf(e, c, r.session) {
        InTurnHere(lim, m, e);
        assert RequestOf(log[k - 1], c, r.session) && log[k - 1].number == r.number;
      } else {
        NumberInLog(lim, log, k - 1, c);
      }
    }
  }

  lemma InTurnHere(lim: Limits, m: Model, e: LogEntry)
    requires e.Request? && InSession(m.table, e.client, e.session) && !Feed(lim, m, e).skipped
    ensures e.number == m.table[e.client].number + 1
  {
  }

  /** What a primary takes is exactly the next request of a session that is open where it has executed up
      to, within the window, unless the client has asked for another session since: by its table and its
      last entries it goes as by the whole log. */
  lemma AcceptsNext(lim: Limits, log: Log, applied: nat, c: nat, s: nat, n: nat)
    requires lim.Valid() && Good(lim, log) && applied <= |log|
    ensures Accepts(lim, log, applied, c, s, n) <==>
              && InSession(After(lim, log, applied).table, c, s) && LastOf(log, applied, c, s) && IsNext(log, c, s, n)
              && n <= After(lim, log, applied).table[c].number + lim.inFlight
  {
    hide Good, Fold, After, Ordered;
    if InSession(After(lim, log, applied).table, c, s) {
      SessionBefore(lim, log, applied, c, s);
      if PendingOf(log, applied, c).None? {
        NonePending(lim, log, applied, c, s, n);
      } else {
        var x := PendingIsLast(log, applied, c);
        SomePending(lim, log, applied, c, s, n, x);
      }
    }
  }

  lemma NonePending(lim: Limits, log: Log, applied: nat, c: nat, s: nat, n: nat)
    requires lim.Valid() && Good(lim, log) && applied <= |log| && InSession(After(lim, log, applied).table, c, s)
    requires PendingOf(log, applied, c).None?
    ensures LastOf(log, applied, c, s) && (IsNext(log, c, s, n) <==> n == After(lim, log, applied).table[c].number + 1)
  {
    var number := After(lim, log, applied).table[c].number;
    forall x | applied <= x < |log|
      ensures log[x].client != c
    {
      PendingNone(log, applied, c, x);
    }
    AfterAll(lim, log);
    SkippedStays(lim, log, applied, |log|);
    forall x | 0 <= x < |log| && RequestOf(log[x], c, s)
      ensures 1 <= log[x].number <= number
    {
      RequestExecuted(lim, log, x, applied);
    }
    if number > 0 {
      NumberInLog(lim, log, applied, c);
    }
  }

  lemma SomePending(lim: Limits, log: Log, applied: nat, c: nat, s: nat, n: nat, x: nat)
    requires lim.Valid() && Good(lim, log) && applied <= x < |log| && InSession(After(lim, log, applied).table, c, s) && s <= applied
    requires log[x].client == c && PendingOf(log, applied, c) == Some(KeyOf(x + 1, log[x])) && forall y :: x < y < |log| ==> log[y].client != c
    requires Opened(lim, log, c, s)
    ensures LastOf(log, applied, c, s) <==> RequestOf(log[x], c, s)
    ensures !RequestOf(log[x], c, s) ==> PendingOf(log, applied, c).value.session > s
    ensures RequestOf(log[x], c, s) ==>
              && log[x].number > After(lim, log, applied).table[c].number
              && (IsNext(log, c, s, n) <==> n == log[x].number + 1)
  {
    hide Fold, After, Opened;
    LastIs(log, applied, c, s, x);
    if RequestOf(log[x], c, s) {
      assert log[x].number >= 1;
      NextAfter(log, c, s, n, x) by {
        assert forall z, y :: 0 <= z < y < |log| && SameSessionOf(log[z], log[y]) ==> log[z].number < log[y].number;
      }
      AfterAll(lim, log);
      SkippedStays(lim, log, applied, |log|);
      if After(lim, log, applied).table[c].number > 0 {
        NumberInLog(lim, log, applied, c);
        var y :| 0 <= y < applied && RequestOf(log[y], c, s) && log[y].number == After(lim, log, applied).table[c].number;
        assert SameSessionOf(log[y], log[x]);
      }
    } else if log[x].Request? {
      assert Opened(lim, log, log[x].client, s);
    }
  }

  lemma LastIs(log: Log, applied: nat, c: nat, s: nat, x: nat)
    requires applied <= x < |log| && log[x].client == c && forall y :: x < y < |log| ==> log[y].client != c
    ensures LastOf(log, applied, c, s) <==> RequestOf(log[x], c, s)
  {
    hide RequestOf;
  }

  lemma NextAfter(log: Log, c: nat, s: nat, n: nat, x: nat)
    requires x < |log| && RequestOf(log[x], c, s) && log[x].number >= 1 && forall y :: x < y < |log| ==> log[y].client != c
    requires forall z, y :: 0 <= z < y < |log| && SameSessionOf(log[z], log[y]) ==> log[z].number < log[y].number
    ensures IsNext(log, c, s, n) <==> n == log[x].number + 1
  {
    forall y | 0 <= y < |log| && RequestOf(log[y], c, s)
      ensures log[y].number <= log[x].number
    {
      if y < x {
        assert SameSessionOf(log[y], log[x]);
      }
    }
  }

  /** The client's last entry after the first `applied` is a registration. */
  ghost predicate Registering(log: Log, applied: nat, c: nat) {
    exists x {:trigger log[x]} :: applied <= x < |log| && log[x] == Register(c) && forall y :: x < y < |log| ==> log[y].client != c
  }

  /** So the primary sees by what is pending, as requests are numbered from 1. */
  lemma RegisteringPends(lim: Limits, log: Log, applied: nat, c: nat)
    requires Good(lim, log)
    ensures Registering(log, applied, c) <==> PendingOf(log, applied, c).Some? && PendingOf(log, applied, c).value.number == 0
  {
    hide Fold, Ordered;
    if PendingOf(log, applied, c).None? {
      forall y | applied <= y < |log|
        ensures log[y].client != c
      {
        PendingNone(log, applied, c, y);
      }
    } else {
      var x := PendingIsLast(log, applied, c);
    }
  }
}
