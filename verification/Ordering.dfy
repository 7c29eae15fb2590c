/** Exactly once and in order: what primaries append keeps every session's requests in order, however
    far behind a primary is in execution, and no reply is lost to a client that still wants it. */
module Ordering {
  import opened Types
  import opened Sessions

  // ---------------------------------------------------------------------------
  // Executions

  /** The entry at index `k` is a request that executes. */
  ghost predicate Executes(lim: Limits, log: Log, k: nat) {
    k < |log| && log[k].Request? && InSession(After(lim, log, k).table, log[k].client, log[k].session)
  }

  /** How many of the first `k` entries execute as requests of session `s` of client `c`. */
  ghost function Count(lim: Limits, log: Log, k: nat, c: nat, s: nat): nat
    requires k <= |log|
  {
    if k == 0 then 0
    else Count(lim, log, k - 1, c, s) +
         (if Executes(lim, log, k - 1) && log[k - 1].client == c && log[k - 1].session == s then 1 else 0)
  }

  lemma {:induction false} SkippedStays(lim: Limits, log: Log, j: nat, k: nat)
    requires j <= k <= |log| && !After(lim, log, k).skipped
    ensures !After(lim, log, j).skipped
    decreases k
  {
    if j < k {
      AfterNext(lim, log, k - 1);
      SkippedStays(lim, log, j, k - 1);
    }
  }

  /** A session is numbered by the op that opened it, and lives on from there. */
  lemma {:induction false} Lives(lim: Limits, log: Log, c: nat, k: nat, b: nat)
    requires lim.Valid() && b <= |log| && c in After(lim, log, b).table
    requires After(lim, log, b).table[c].session <= k <= b
    ensures After(lim, log, b).table[c].session >= 1
    ensures InSession(After(lim, log, k).table, c, After(lim, log, b).table[c].session)
    decreases b
  {
    FoldOk(lim, log[..b]);
    assert RecordOk(lim, b, After(lim, log, b).results, c, After(lim, log, b).table[c]);
    if k < b {
      AfterNext(lim, log, b - 1);
      SameSession(lim, After(lim, log, b - 1), log[b - 1], c);
      Lives(lim, log, c, k, b - 1);
    }
  }

  /** An entry opens a session with its own number, or leaves the client's session. */
  lemma SameSession(lim: Limits, m: Model, e: LogEntry, c: nat)
    requires c in Feed(lim, m, e).table && Feed(lim, m, e).table[c].session != m.fed + 1
    ensures c in m.table && m.table[c].session == Feed(lim, m, e).table[c].session
  {
  }

  /** Session `s` of client `c` was opened by the log. */
  ghost predicate Opened(lim: Limits, log: Log, c: nat, s: nat) {
    1 <= s <= |log| && InSession(After(lim, log, s).table, c, s)
  }

  lemma OpenedByRegister(lim: Limits, log: Log, c: nat, s: nat)
    requires lim.Valid() && Opened(lim, log, c, s)
    ensures log[s - 1] == Register(c)
  {
    hide Feed, ModelOk, Fold;
    AfterNext(lim, log, s - 1);
    FoldOk(lim, log[..s - 1]);
    FeedOpens(lim, After(lim, log, s - 1), log[s - 1], c);
  }

  lemma FeedOpens(lim: Limits, m: Model, e: LogEntry, c: nat)
    requires ModelOk(lim, m) && InSession(Feed(lim, m, e).table, c, m.fed + 1)
    ensures e == Register(c) && Feed(lim, m, e).table[c].number == 0
  {
    hide Evicted;
    if c in m.table {
      SessionPart(lim, m, c);
    }
    assert e.Register? && e.client != c ==> c in Evicted(lim, m.table) && Evicted(lim, m.table)[c].session == m.fed + 1;
    if c in Evicted(lim, m.table) {
      EvictedFrom(lim, m.table, c);
    }
  }

  lemma EvictedFrom(lim: Limits, table: Table, c: nat)
    requires c in Evicted(lim, table)
    ensures c in table && Evicted(lim, table)[c] == table[c]
  {
  }

  /** A live session's request number counts the requests of it that executed, so each executes once,
      after all before it. */
  lemma {:induction false} NumberIsCount(lim: Limits, log: Log, k: nat, c: nat)
    requires lim.Valid() && k <= |log| && !After(lim, log, k).skipped && c in After(lim, log, k).table
    ensures After(lim, log, k).table[c].number == Count(lim, log, k, c, After(lim, log, k).table[c].session)
  {
    hide Fold, ModelOk, Feed, After;
    var s := After(lim, log, k).table[c].session;
    SessionBefore(lim, log, k, c, s);
    AfterNext(lim, log, k - 1);
    var m, e := After(lim, log, k - 1), log[k - 1];
    if s == k {
      FoldOk(lim, log[..k - 1]) ;
      FoldIsAfter(lim, log, k - 1);
      FeedOpens(lim, m, e, c);
      NoneYet(lim, log, k - 1, c, s);
    } else {
      SameSession(lim, m, e, c);
      SkippedStays(lim, log, k - 1, k);
      NumberIsCount(lim, log, k - 1, c);
      FeedCounts(lim, m, e, c);
    }
  }

  lemma FoldIsAfter(lim: Limits, log: Log, k: nat)
    requires k <= |log|
    ensures After(lim, log, k) == Fold(lim, log[..k])
  {
  }

  /** An entry counts as a request of the client's session if it is one, in turn. */
  lemma FeedCounts(lim: Limits, m: Model, e: LogEntry, c: nat)
    requires c in m.table && c in Feed(lim, m, e).table && Feed(lim, m, e).table[c].session == m.table[c].session
    requires m.table[c].session <= m.fed && !Feed(lim, m, e).skipped
    ensures var mine := e.Request? && e.client == c && e.session == m.table[c].session;
            Feed(lim, m, e).table[c].number == m.table[c].number + (if mine then 1 else 0)
  {
    hide Evicted;
    if c in Evicted(lim, m.table) {
      EvictedFrom(lim, m.table, c);
    }
  }

  /** Nothing executes in a session before it opens. */
  lemma {:induction false} NoneYet(lim: Limits, log: Log, k: nat, c: nat, s: nat)
    requires lim.Valid() && k <= |log| && k < s
    ensures Count(lim, log, k, c, s) == 0
  {
    if k > 0 {
      NoneYet(lim, log, k - 1, c, s);
      if Executes(lim, log, k - 1) && log[k - 1].client == c && log[k - 1].session == s {
        SessionBefore(lim, log, k - 1, c, s);
      }
    }
  }

  /** Exactly once, in order: a request executes as the next of its session, with a result that no
      request has had yet and that stays. */
  lemma ExecutesInTurn(lim: Limits, log: Log, k: nat)
    requires lim.Valid() && Executes(lim, log, k) && !Fold(lim, log).skipped
    ensures log[k].number == Count(lim, log, k, log[k].client, log[k].session) + 1
    ensures var id := Id(log[k].client, log[k].session, log[k].number);
            id !in After(lim, log, k).results && id in After(lim, log, k + 1).results
  {
    AfterAll(lim, log);
    SkippedStays(lim, log, k + 1, |log|);
    SkippedStays(lim, log, k, |log|);
    AfterNext(lim, log, k);
    NumberIsCount(lim, log, k, log[k].client);
    FoldOk(lim, log[..k]);
    ExecuteOk(lim, After(lim, log, k), log[k].client, log[k].answered, log[k].op);
  }

  lemma {:induction false} CountGrows(lim: Limits, log: Log, j: nat, k: nat, c: nat, s: nat)
    requires j <= k <= |log|
    ensures Count(lim, log, j, c, s) <= Count(lim, log, k, c, s)
  {
    if j < k {
      CountGrows(lim, log, j, k - 1, c, s);
    }
  }

  /** Two entries that execute are different requests. */
  lemma ExecutesOnce(lim: Limits, log: Log, j: nat, k: nat)
    requires lim.Valid() && j < k && Executes(lim, log, j) && Executes(lim, log, k) && !Fold(lim, log).skipped
    requires log[j].client == log[k].client && log[j].session == log[k].session
    ensures log[j].number < log[k].number
  {
    ExecutesInTurn(lim, log, j);
    ExecutesInTurn(lim, log, k);
    CountGrows(lim, log, j + 1, k, log[k].client, log[k].session);
  }

  // ---------------------------------------------------------------------------
  // What primaries append

  /** What the primary keeps of an entry: its session and number, 0 for a registration. */
  datatype Key = Key(session: nat, number: nat)

  function KeyOf(op: nat, e: LogEntry): Key {
    match e
    case Register(_) => Key(op, 0)
    case Request(_, s, n, _, _) => Key(s, n)
  }

  /** The key of client `c`'s last entry after the first `applied`. */
  function PendingOf(log: Log, applied: nat, c: nat): Option<Key> {
    if |log| <= applied then None
    else if log[|log| - 1].client == c then Some(KeyOf(|log|, log[|log| - 1]))
    else PendingOf(log[..|log| - 1], applied, c)
  }

  lemma {:induction false} PendingIsLast(log: Log, applied: nat, c: nat) returns (x: nat)
    requires PendingOf(log, applied, c).Some?
    ensures applied <= x < |log| && log[x].client == c && PendingOf(log, applied, c) == Some(KeyOf(x + 1, log[x]))
    ensures forall y :: x < y < |log| ==> log[y].client != c
  {
    if log[|log| - 1].client == c {
      x := |log| - 1;
    } else {
      x := PendingIsLast(log[..|log| - 1], applied, c);
    }
  }

  lemma {:induction false} PendingNone(log: Log, applied: nat, c: nat, y: nat)
    requires PendingOf(log, applied, c).None? && applied <= y < |log|
    ensures log[y].client != c
  {
    if y < |log| - 1 {
      PendingNone(log[..|log| - 1], applied, c, y);
    }
  }

  /** The request number the primary takes to be the last of session `s` in its log. */
  function LatestNumber(r: Record, pending: Option<Key>): nat {
    if pending.Some? && pending.value.session == r.session then pending.value.number else r.number
  }

  /** Whether the primary appends a request, with `table` what it has executed up to and `pending` the
      key of the client's last entry after that. */
  predicate Appends(lim: Limits, table: Table, pending: Option<Key>, c: nat, s: nat, n: nat) {
    && InSession(table, c, s)
    && n > table[c].number
    && !(pending.Some? && pending.value.session > s)
    && n == LatestNumber(table[c], pending) + 1
    && n <= table[c].number + lim.inFlight
  }

  /** After a session is opened its client's requests of earlier sessions are over. */
  ghost predicate Ordered(lim: Limits, log: Log) {
    forall x: nat, s: nat {:trigger Opened(lim, log, log[x].client, s)} ::
      x < |log| && log[x].Request? && log[x].session < s <= x ==> !Opened(lim, log, log[x].client, s)
  }

  /** Requests are of sessions numbered before them, and each session's are numbered upwards. */
  ghost predicate Increasing(log: Log) {
    && (forall x: nat :: x < |log| && log[x].Request? ==> 1 <= log[x].session <= x && log[x].number >= 1)
    && (forall x: nat, y: nat :: x < y < |log| && SameSessionOf(log[x], log[y]) ==> log[x].number < log[y].number)
  }

  predicate SameSessionOf(d: LogEntry, e: LogEntry) {
    d.Request? && e.Request? && d.client == e.client && d.session == e.session
  }

  /** Requests execute in turn, and sessions come one after the other. */
  ghost predicate Good(lim: Limits, log: Log) {
    !Fold(lim, log).skipped && Ordered(lim, log) && Increasing(log)
  }

  lemma OpenedPrefix(lim: Limits, log: Log, log': Log, c: nat, s: nat)
    requires log <= log' && s <= |log|
    ensures Opened(lim, log, c, s) <==> Opened(lim, log', c, s)
  {
    if s >= 1 {
      assert log[..s] == log'[..s];
    }
  }

  /** A prefix of a good log is good: what is cut off a log leaves it so. */
  lemma PrefixGood(lim: Limits, log: Log, k: nat)
    requires Good(lim, log) && k <= |log|
    ensures Good(lim, log[..k])
  {
    AfterAll(lim, log);
    SkippedStays(lim, log, k, |log|);
    assert forall x: nat, y: nat :: x < y < k && SameSessionOf(log[..k][x], log[..k][y]) ==> SameSessionOf(log[x], log[y]);
    forall x: nat, s: nat | x < k && log[x].Request? && log[x].session < s <= x
      ensures !Opened(lim, log[..k], log[x].client, s)
    {
      OpenedPrefix(lim, log[..k], log, log[x].client, s);
    }
  }

  /** A client without entries in between keeps its request number. */
  lemma {:induction false} NumberStays(lim: Limits, log: Log, c: nat, a: nat, b: nat)
    requires lim.Valid() && a <= b <= |log| && c in After(lim, log, b).table
    requires After(lim, log, b).table[c].session <= a
    requires forall y :: a <= y < b ==> log[y].client != c
    ensures c in After(lim, log, a).table && After(lim, log, a).table[c].number == After(lim, log, b).table[c].number
    decreases b
  {
    if a < b {
      AfterNext(lim, log, b - 1);
      SameSession(lim, After(lim, log, b - 1), log[b - 1], c);
      NumberStays(lim, log, c, a, b - 1);
    }
  }

  /** The last request of a live session in the log is the last it executes. */
  lemma LastNumber(lim: Limits, log: Log, c: nat, x: nat)
    requires lim.Valid() && !Fold(lim, log).skipped && x < |log| && log[x].Request? && log[x].client == c
    requires forall y :: x < y < |log| ==> log[y].client != c
    requires InSession(Fold(lim, log).table, c, log[x].session) && log[x].session <= x
    ensures Fold(lim, log).table[c].number == log[x].number
  {
    AfterAll(lim, log);
    Lives(lim, log, c, x, |log|);
    NumberStays(lim, log, c, x + 1, |log|);
    AfterNext(lim, log, x);
    SkippedStays(lim, log, x + 1, |log|);
  }

  /** A live session's request number only grows. */
  lemma {:induction false} NumberGrows(lim: Limits, log: Log, c: nat, a: nat, b: nat)
    requires lim.Valid() && a <= b <= |log| && c in After(lim, log, b).table
    requires After(lim, log, b).table[c].session <= a
    ensures c in After(lim, log, a).table && After(lim, log, a).table[c].number <= After(lim, log, b).table[c].number
    decreases b
  {
    if a < b {
      AfterNext(lim, log, b - 1);
      SameSession(lim, After(lim, log, b - 1), log[b - 1], c);
      NumberGrows(lim, log, c, a, b - 1);
    }
  }

  /** A request in the log before `b` of a session live at `b` has executed by then. */
  lemma RequestExecuted(lim: Limits, log: Log, x: nat, b: nat)
    requires lim.Valid() && x < b <= |log| && log[x].Request? && log[x].session <= x && !Fold(lim, log).skipped
    requires InSession(After(lim, log, b).table, log[x].client, log[x].session)
    ensures log[x].number <= After(lim, log, b).table[log[x].client].number
  {
    AfterAll(lim, log);
    SkippedStays(lim, log, x + 1, |log|);
    Lives(lim, log, log[x].client, x, b);
    NumberGrows(lim, log, log[x].client, x + 1, b);
    AfterNext(lim, log, x);
  }

  /** What a primary goes by: its table after `applied` entries of its log, and the entries after them. */
  ghost predicate Accepts(lim: Limits, log: Log, applied: nat, c: nat, s: nat, n: nat) {
    applied <= |log| && Appends(lim, After(lim, log, applied).table, PendingOf(log, applied, c), c, s, n)
  }

  lemma SessionBefore(lim: Limits, log: Log, applied: nat, c: nat, s: nat)
    requires lim.Valid() && applied <= |log| && InSession(After(lim, log, applied).table, c, s)
    ensures 1 <= s <= applied && Opened(lim, log, c, s)
  {
    FoldOk(lim, log[..applied]);
    assert RecordOk(lim, applied, After(lim, log, applied).results, c, After(lim, log, applied).table[c]);
    Lives(lim, log, c, s, applied);
  }

  /** The client's last entry after `applied`, if any, is the session's last request. */
  lemma PendingInSession(lim: Limits, log: Log, applied: nat, c: nat, s: nat, n: nat) returns (x: nat)
    requires lim.Valid() && Good(lim, log) && Accepts(lim, log, applied, c, s, n) && PendingOf(log, applied, c).Some?
    ensures applied <= x < |log| && log[x].Request? && log[x].client == c && log[x].session == s && log[x].number + 1 == n
    ensures forall y :: x < y < |log| ==> log[y].client != c
  {
    x := PendingIsLast(log, applied, c);
    SessionBefore(lim, log, applied, c, s);
  }

  /** What a primary appends executes in turn, though it has yet to execute what is before it in the log. */
  lemma AppendInTurn(lim: Limits, log: Log, applied: nat, c: nat, s: nat, n: nat)
    requires lim.Valid() && Good(lim, log) && Accepts(lim, log, applied, c, s, n)
    ensures InSession(Fold(lim, log).table, c, s) ==> Fold(lim, log).table[c].number + 1 == n
  {
    SessionBefore(lim, log, applied, c, s);
    if InSession(Fold(lim, log).table, c, s) {
      if PendingOf(log, applied, c).Some? {
        var x := PendingInSession(lim, log, applied, c, s, n);
        LastNumber(lim, log, c, x);
      } else {
        AfterAll(lim, log);
        forall y | applied <= y < |log|
          ensures log[y].client != c
        {
          PendingNone(log, applied, c, y);
        }
        NumberStays(lim, log, c, applied, |log|);
      }
    }
  }

  /** No session of its client is opened after the one it appends to. */
  lemma AppendOrdered(lim: Limits, log: Log, applied: nat, c: nat, s: nat, n: nat, s': nat)
    requires lim.Valid() && Good(lim, log) && Accepts(lim, log, applied, c, s, n) && s < s' <= |log|
    ensures !Opened(lim, log, c, s')
  {
    SessionBefore(lim, log, applied, c, s);
    if Opened(lim, log, c, s') {
      if s' <= applied {
        Lives(lim, log, c, s', applied);
        assert false;
      } else {
        OpenedByRegister(lim, log, c, s');
        if PendingOf(log, applied, c).None? {
          PendingNone(log, applied, c, s' - 1);
          assert false;
        } else {
          var x := PendingInSession(lim, log, applied, c, s, n);
        }
      }
    }
  }

  lemma AppendIncreasing(lim: Limits, log: Log, applied: nat, c: nat, s: nat, n: nat, x: nat)
    requires lim.Valid() && Good(lim, log) && Accepts(lim, log, applied, c, s, n)
    requires x < |log| && log[x].Request? && log[x].client == c && log[x].session == s
    ensures log[x].number < n
  {
    if x < applied {
      RequestExecuted(lim, log, x, applied);
    } else if PendingOf(log, applied, c).None? {
      PendingNone(log, applied, c, x);
      assert false;
    } else {
      var last := PendingInSession(lim, log, applied, c, s, n);
      assert x < last ==> SameSessionOf(log[x], log[last]);
    }
  }

  /** Every log primaries build is good: each appends to a good log, by what it has executed of it. */
  lemma AppendRequestGood(lim: Limits, log: Log, applied: nat, c: nat, s: nat, n: nat, answered: nat, o: Op)
    requires lim.Valid() && Good(lim, log) && Accepts(lim, log, applied, c, s, n)
    ensures Good(lim, log + [Request(c, s, n, answered, o)])
  {
    var e := Request(c, s, n, answered, o);
    var log' := log + [e];
    assert log'[..|log|] == log;
    AppendInTurn(lim, log, applied, c, s, n);
    SessionBefore(lim, log, applied, c, s);
    forall x: nat, y: nat | x < y < |log'| && SameSessionOf(log'[x], log'[y])
      ensures log'[x].number < log'[y].number
    {
      if y == |log| {
        AppendIncreasing(lim, log, applied, c, s, n, x);
      } else {
        assert SameSessionOf(log[x], log[y]);
      }
    }
    forall x: nat, s': nat | x < |log'| && log'[x].Request? && log'[x].session < s' <= x
      ensures !Opened(lim, log', log'[x].client, s')
    {
      OpenedPrefix(lim, log, log', log'[x].client, s');
      if x == |log| {
        AppendOrdered(lim, log, applied, c, s, n, s');
      } else {
        assert !Opened(lim, log, log[x].client, s');
      }
    }
  }

  lemma AppendRegisterGood(lim: Limits, log: Log, c: nat)
    requires Good(lim, log)
    ensures Good(lim, log + [Register(c)])
  {
    var log' := log + [Register(c)];
    assert log'[..|log|] == log;
    assert forall x: nat, y: nat :: x < y < |log'| && SameSessionOf(log'[x], log'[y]) ==> SameSessionOf(log[x], log[y]);
    forall x: nat, s: nat | x < |log'| && log'[x].Request? && log'[x].session < s <= x
      ensures !Opened(lim, log', log'[x].client, s)
    {
      OpenedPrefix(lim, log, log', log'[x].client, s);
      assert !Opened(lim, log, log[x].client, s);
    }
  }

  // ---------------------------------------------------------------------------
  // Executing the next entry

  lemma {:induction false} PendingOfOther(log: Log, applied: nat, c: nat)
    requires applied < |log| && log[applied].client != c
    ensures PendingOf(log, applied + 1, c) == PendingOf(log, applied, c)
    decreases |log|
  {
    if |log| > applied + 1 && log[|log| - 1].client != c {
      PendingOfOther(log[..|log| - 1], applied, c);
    }
  }

  lemma {:induction false} PendingOfSame(log: Log, applied: nat, x: nat)
    requires applied < x < |log| && log[x].client == log[applied].client
    ensures PendingOf(log, applied + 1, log[x].client) == PendingOf(log, applied, log[x].client)
    decreases |log|
  {
    if log[|log| - 1].client != log[x].client {
      PendingOfSame(log[..|log| - 1], applied, x);
    }
  }

  lemma {:induction false} PendingOfNone(log: Log, applied: nat, c: nat)
    requires forall y :: applied <= y < |log| ==> log[y].client != c
    ensures PendingOf(log, applied, c).None?
  {
    if |log| > applied {
      PendingOfNone(log[..|log| - 1], applied, c);
    }
  }

  /** Executing an entry clears what is pending of its client exactly if that is the entry itself. */
  lemma PendingNext(lim: Limits, log: Log, applied: nat, c: nat)
    requires Good(lim, log) && applied < |log|
    ensures var before := PendingOf(log, applied, c);
            PendingOf(log, applied + 1, c) ==
            if log[applied].client == c && before == Some(KeyOf(applied + 1, log[applied])) then None else before
  {
    if log[applied].client != c {
      PendingOfOther(log, applied, c);
    } else if x: nat :| applied < x < |log| && log[x].client == c {
      PendingOfSame(log, applied, x);
      if PendingOf(log, applied, c).None? {
        PendingNone(log, applied, c, x);
      } else {
        var last := PendingIsLast(log, applied, c);
        assert SameSessionOf(log[applied], log[last]) ==> log[applied].number < log[last].number;
      }
    } else {
      PendingOfNone(log, applied + 1, c);
      if PendingOf(log, applied, c).None? {
        PendingNone(log, applied, c, applied);
      } else {
        var last := PendingIsLast(log, applied, c);
      }
    }
  }

  lemma PendingAppend(log: Log, applied: nat, c: nat, e: LogEntry)
    requires applied <= |log|
    ensures PendingOf(log + [e], applied, c) == if e.client == c then Some(KeyOf(|log| + 1, e)) else PendingOf(log, applied, c)
  {
    assert (log + [e])[..|log|] == log;
  }

  // ---------------------------------------------------------------------------
  // Replies kept

  /** The copies of a session's requests in the log, by a client that has had the replies up to
      `answered` by now: each carries the replies had when it was sent, no more than `inFlight` behind. */
  ghost predicate CopiesOk(lim: Limits, log: Log, c: nat, s: nat, answered: nat) {
    forall x {:trigger log[x]} :: 0 <= x < |log| && log[x].Request? && log[x].client == c && log[x].session == s ==>
      log[x].answered <= answered && log[x].number <= log[x].answered + lim.inFlight
  }

  /** The table keeps the results its client still waits for. */
  lemma {:induction false} RepliesKept(lim: Limits, log: Log, c: nat, s: nat, answered: nat)
    requires lim.Valid() && CopiesOk(lim, log, c, s, answered) && !Fold(lim, log).skipped
    requires InSession(Fold(lim, log).table, c, s)
    ensures Fold(lim, log).table[c].number - answered <= |Fold(lim, log).table[c].replies|
  {
    hide ModelOk, Feed;
    if log != [] {
      var rest, e := log[..|log| - 1], log[|log| - 1];
      var m := Fold(lim, rest);
      FoldOk(lim, rest);
      if s == |log| {
        FeedOpens(lim, m, e, c);
      } else {
        SameSession(lim, m, e, c);
        SkippedOnce(lim, m, e);
        RepliesKept(lim, rest, c, s, answered);
        SessionPart(lim, m, c) by { RecordsPart(lim, m); }
        FeedKeeps(lim, m, e, c, answered);
      }
    }
  }

  lemma RecordsPart(lim: Limits, m: Model)
    requires ModelOk(lim, m)
    ensures RecordsOk(lim, m)
  {
  }

  lemma SkippedOnce(lim: Limits, m: Model, e: LogEntry)
    requires !Feed(lim, m, e).skipped
    ensures !m.skipped
  {
  }

  lemma FeedKeeps(lim: Limits, m: Model, e: LogEntry, c: nat, answered: nat)
    requires lim.Valid() && c in m.table && c in Feed(lim, m, e).table && Feed(lim, m, e).table[c].session == m.table[c].session
    requires m.table[c].session <= m.fed && !Feed(lim, m, e).skipped && m.table[c].number - answered <= |m.table[c].replies|
    requires e.Request? && e.client == c && e.session == m.table[c].session ==>
               e.answered <= answered && e.number <= e.answered + lim.inFlight
    ensures Feed(lim, m, e).table[c].number - answered <= |Feed(lim, m, e).table[c].replies|
  {
    hide Evicted, Keep, Kept;
    if c in Evicted(lim, m.table) {
      EvictedFrom(lim, m.table, c);
    }
    if e.Request? && e.client == c && e.session == m.table[c].session {
      KeptLength(lim, m.table[c], m.executed, e, answered);
    }
  }

  lemma KeptLength(lim: Limits, r: Record, executed: seq<Op>, e: LogEntry, answered: nat)
    requires lim.Valid() && r.number - answered <= |r.replies|
    requires e.Request? && e.number == r.number + 1 ==> e.answered <= answered && e.number <= e.answered + lim.inFlight
    ensures e.Request? && e.number == r.number + 1 ==>
              r.number + 1 - answered <= |Keep(r.replies + [executed + [e.op]], Kept(lim, e.number, e.answered))|
  {
  }

  /** No reply is lost: a request that executed in a live session and is still in flight at its client,
      so past its `answered`, is answered at the index a re-send computes, with its own result. */
  lemma ReplyRetained(lim: Limits, log: Log, c: nat, s: nat, answered: nat, n: nat)
    requires lim.Valid() && CopiesOk(lim, log, c, s, answered) && !Fold(lim, log).skipped
    requires InSession(Fold(lim, log).table, c, s) && answered < n <= Fold(lim, log).table[c].number
    ensures var r := Fold(lim, log).table[c];
            var index := |r.replies| - (r.number - n + 1);
            0 <= index < |r.replies| && HasResult(Fold(lim, log).results, Id(c, s, n), r.replies[index])
  {
    hide Fold, ModelOk, CopiesOk;
    RepliesKept(lim, log, c, s, answered);
    FoldOk(lim, log);
    var m := Fold(lim, log);
    RecordsPart(lim, m);
    ReplyAt(lim, m, c, n);
  }

  lemma ReplyAt(lim: Limits, m: Model, c: nat, n: nat)
    requires RecordsOk(lim, m) && c in m.table
    requires var r := m.table[c]; r.number - |r.replies| < n <= r.number
    ensures var r := m.table[c];
            var index := |r.replies| - (r.number - n + 1);
            0 <= index < |r.replies| && HasResult(m.results, Id(c, r.session, n), r.replies[index])
  {
    var r := m.table[c];
    var index := |r.replies| - (r.number - n + 1);
    assert RecordOk(lim, m.fed, m.results, c, r);
    assert HasResult(m.results, IdOf(c, r, index), r.replies[index]);
  }
}
