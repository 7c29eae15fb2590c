/** A client: its session, its requests and queries in flight, and those that wait their turn. */
module Client {
  import opened Types

  /** A request or query sent, its op or query kept until the reply comes, and when it was last sent. */
  datatype InFlight<+T> = InFlight(number: nat, item: Option<T>, sent: nat)

  datatype Queued<+P, +Q> = QueuedRequest(number: nat, op: P) | QueuedQuery(number: nat, query: Q)

  datatype Outgoing<+P, +Q> =
    | Register
    | RequestOut(session: nat, number: nat, answered: nat, op: P)
    | QueryOut(number: nat, query: Q)

  datatype Reply<+O> =
    | Registered(view: nat, client: nat, session: nat)
    | Executed(view: nat, client: nat, session: nat, number: nat, result: O)
    | Evicted(view: nat, client: nat, session: nat)
    | Queried(view: nat, client: nat, number: nat, result: O)

  datatype Completion<+O> = RequestDone(number: nat, result: O) | QueryDone(number: nat, result: O) | SessionLost

  // ---------------------------------------------------------------------------
  // In flight

  /** What is in flight of a kind whose next number to send is `end`: the numbers before it follow each
      other, no more than `max`, the oldest without a reply.  `done` are those that completed, all from
      `base` on but those in flight without a reply. */
  ghost predicate FlightOk<T>(flight: seq<InFlight<T>>, base: nat, end: nat, max: nat, done: set<nat>) {
    && |flight| <= max && 1 <= base && base + |flight| <= end
    && (forall i {:trigger flight[i]} :: 0 <= i < |flight| ==> flight[i].number == end - |flight| + i)
    && (flight != [] ==> flight[0].item.Some?)
    && (forall i {:trigger flight[i]} :: 0 <= i < |flight| ==> (flight[i].item.Some? <==> flight[i].number !in done))
    && (forall n: nat {:trigger n in done} :: base <= n < end - |flight| ==> n in done)
    && (forall n {:trigger n in done} :: n in done ==> base <= n < end)
  }

  /** The oldest number in flight, or the next. */
  function Oldest<T>(flight: seq<InFlight<T>>, next: nat): nat {
    if flight == [] then next else flight[0].number
  }

  predicate Awaits<T>(flight: seq<InFlight<T>>, number: nat) {
    flight != [] && flight[0].number <= number && number - flight[0].number < |flight|
    && flight[number - flight[0].number].item.Some?
  }

  /** Takes the one numbered `number` out, if it is in flight without a reply, and drops those answered
      from the front. */
  method Answer<T>(flight: seq<InFlight<T>>, number: nat, ghost base: nat, ghost end: nat, ghost max: nat, ghost done: set<nat>)
      returns (rest: seq<InFlight<T>>, ok: bool)
    requires FlightOk(flight, base, end, max, done)
    ensures ok == Awaits(flight, number)
    ensures ok <==> number !in done && base <= number < end
    ensures FlightOk(rest, base, end, max, if ok then done + {number} else done)
    ensures !ok ==> rest == flight
  {
    if flight == [] {
      return flight, false;
    }
    var oldest := flight[0].number;
    if number < oldest || number - oldest >= |flight| {
      return flight, false;
    }
    var index := number - oldest;
    ok := flight[index].item.Some?;
    if !ok {
      return flight, false;
    }
    rest := flight[index := flight[index].(item := None)];
    ghost var all := rest;
    ghost var k := 0;
    while rest != [] && rest[0].item.None?
      invariant 0 <= k <= |all| && rest == all[k..]
      invariant forall i :: 0 <= i < k ==> all[i].item.None?
    {
      rest := rest[1..];
      k := k + 1;
    }
    AnsweredOk(flight, index, k, base, end, max, done);
  }

  lemma AnsweredOk<T>(flight: seq<InFlight<T>>, index: nat, k: nat, base: nat, end: nat, max: nat, done: set<nat>)
    requires FlightOk(flight, base, end, max, done) && index < |flight| && flight[index].item.Some?
    requires var all := flight[index := flight[index].(item := None)];
             k <= |all| && (forall i :: 0 <= i < k ==> all[i].item.None?) && (k < |all| ==> all[k].item.Some?)
    ensures FlightOk(flight[index := flight[index].(item := None)][k..], base, end, max, done + {flight[index].number})
  {
    var all := flight[index := flight[index].(item := None)];
    var rest, done' := all[k..], done + {flight[index].number};
    forall n: nat | base <= n < end - |rest|
      ensures n in done'
    {
      if n >= end - |flight| {
        var i := n - (end - |flight|);
        assert all[i].item.None? && flight[i].number == n;
      }
    }
    forall i | 0 <= i < |rest|
      ensures rest[i].number == end - |rest| + i && (rest[i].item.Some? <==> rest[i].number !in done')
    {
      assert rest[i] == all[k + i] && flight[k + i].number == end - |flight| + k + i;
    }
  }

  /** The next number is sent. */
  lemma SentOk<T>(flight: seq<InFlight<T>>, base: nat, end: nat, max: nat, done: set<nat>, x: T, now: nat)
    requires FlightOk(flight, base, end, max, done) && end < Oldest(flight, end) + max
    ensures FlightOk(flight + [InFlight(end, Some(x), now)], base, end + 1, max, done)
  {
    var flight' := flight + [InFlight(end, Some(x), now)];
    forall i | 0 <= i < |flight'|
      ensures flight'[i].number == end + 1 - |flight'| + i
      ensures flight'[i].item.Some? <==> flight'[i].number !in done
    {
      if i < |flight| {
        assert flight'[i] == flight[i];
      }
    }
  }

  // ---------------------------------------------------------------------------
  // Waiting

  /** The operations queued number on from `request` and `query`, up to `nextRequest` and `nextQuery`. */
  predicate NumbersOn<P, Q>(queued: seq<Queued<P, Q>>, request: nat, query: nat, nextRequest: nat, nextQuery: nat) {
    if queued == [] then request == nextRequest && query == nextQuery
    else if queued[0].QueuedRequest? then
      queued[0].number == request && NumbersOn(queued[1..], request + 1, query, nextRequest, nextQuery)
    else
      queued[0].number == query && NumbersOn(queued[1..], request, query + 1, nextRequest, nextQuery)
  }

  lemma {:induction false} NumbersOnOne<P, Q>(queued: seq<Queued<P, Q>>, request: nat, query: nat, nextRequest: nat, nextQuery: nat, x: Queued<P, Q>)
    requires NumbersOn(queued, request, query, nextRequest, nextQuery)
    requires x.number == if x.QueuedRequest? then nextRequest else nextQuery
    ensures if x.QueuedRequest? then NumbersOn(queued + [x], request, query, nextRequest + 1, nextQuery)
            else NumbersOn(queued + [x], request, query, nextRequest, nextQuery + 1)
  {
    if queued == [] {
      assert (queued + [x])[1..] == [];
    } else {
      assert (queued + [x])[1..] == queued[1..] + [x];
      if queued[0].QueuedRequest? {
        NumbersOnOne(queued[1..], request + 1, query, nextRequest, nextQuery, x);
      } else {
        NumbersOnOne(queued[1..], request, query + 1, nextRequest, nextQuery, x);
      }
    }
  }

  /** Whether the next request may go: no query is in flight, and there is room. */
  predicate RequestMayGo<P, Q>(requests: seq<InFlight<P>>, queries: seq<InFlight<Q>>, number: nat, max: nat) {
    queries == [] && number < Oldest(requests, number) + max
  }

  predicate QueryMayGo<P, Q>(requests: seq<InFlight<P>>, queries: seq<InFlight<Q>>, number: nat, max: nat) {
    requests == [] && number < Oldest(queries, number) + max
  }

  /** The operation at the front of the queue has to wait. */
  predicate Waits<P, Q>(queued: seq<Queued<P, Q>>, session: Option<nat>, requests: seq<InFlight<P>>, queries: seq<InFlight<Q>>, max: nat) {
    queued != [] ==>
      if queued[0].QueuedRequest? then session.None? || !RequestMayGo(requests, queries, queued[0].number, max)
      else !QueryMayGo(requests, queries, queued[0].number, max)
  }

  /** A copy of a request carries how far the replies had come when it was sent, within the window. */
  ghost predicate CopyOk<P, Q>(m: Outgoing<P, Q>, session: Option<nat>, max: nat, answered: nat) {
    m.RequestOut? ==>
      session == Some(m.session) && m.answered <= answered && m.answered < m.number <= m.answered + max
  }

  ghost predicate CopiesOk<P, Q>(copies: set<Outgoing<P, Q>>, session: Option<nat>, max: nat, answered: nat) {
    forall m {:trigger m in copies} :: m in copies ==> CopyOk(m, session, max, answered)
  }

  lemma MoreCopies<P, Q>(copies: set<Outgoing<P, Q>>, session: Option<nat>, max: nat, answered: nat, answered': nat, m: Outgoing<P, Q>)
    requires CopiesOk(copies, session, max, answered) && answered <= answered' && CopyOk(m, session, max, answered')
    ensures CopiesOk(copies + {m}, session, max, answered')
  {
    forall x | x in copies + {m}
      ensures CopyOk(x, session, max, answered')
    {
      assert x != m ==> CopyOk(x, session, max, answered);
    }
  }

  lemma NoCopies<P, Q>(copies: set<Outgoing<P, Q>>, session: Option<nat>, max: nat, answered: nat)
    requires forall m :: m in copies ==> !m.RequestOut?
    ensures CopiesOk(copies, session, max, answered)
  {
  }

  ghost predicate AllSent<P, Q>(outbox: seq<(nat, Outgoing<P, Q>)>, copies: set<Outgoing<P, Q>>) {
    forall k {:trigger outbox[k]} :: 0 <= k < |outbox| ==> outbox[k].1 in copies
  }

  // ---------------------------------------------------------------------------
  // What went out

  /** Operation `x` is what message `m` carries, by its kind and number. */
  predicate Carries<P, Q>(m: Outgoing<P, Q>, x: Queued<P, Q>) {
    match m
    case Register => false
    case RequestOut(_, number, _, _) => x.QueuedRequest? && x.number == number
    case QueryOut(number, _) => x.QueuedQuery? && x.number == number
  }

  ghost predicate Known<P, Q>(list: seq<Queued<P, Q>>, m: Outgoing<P, Q>) {
    m.Register? || exists i :: 0 <= i < |list| && Carries(m, list[i])
  }

  /** The operation that a request or query message carries. */
  function Carried<P, Q>(m: Outgoing<P, Q>): Queued<P, Q>
    requires !m.Register?
  {
    match m
    case RequestOut(_, number, _, op) => QueuedRequest(number, op)
    case QueryOut(number, query) => QueuedQuery(number, query)
  }

  /** The operations in these messages, in the order in which each first went. */
  ghost function FirstSends<P(!new), Q(!new)>(sends: seq<(nat, Outgoing<P, Q>)>): seq<Queued<P, Q>> {
    if sends == [] then []
    else
      var rest, m := FirstSends(sends[..|sends| - 1]), sends[|sends| - 1].1;
      if Known(rest, m) then rest else rest + [Carried(m)]
  }

  lemma FirstSendsOne<P(!new), Q(!new)>(sends: seq<(nat, Outgoing<P, Q>)>, to: nat, m: Outgoing<P, Q>)
    ensures FirstSends(sends + [(to, m)]) == if Known(FirstSends(sends), m) then FirstSends(sends) else FirstSends(sends) + [Carried(m)]
  {
    var all := sends + [(to, m)];
    assert all[..|all| - 1] == sends;
  }

  /** Messages that carry what went before add nothing. */
  lemma {:induction false} NothingNew<P(!new), Q(!new)>(sends: seq<(nat, Outgoing<P, Q>)>, more: seq<(nat, Outgoing<P, Q>)>)
    requires forall k {:trigger more[k]} :: 0 <= k < |more| ==> Known(FirstSends(sends), more[k].1)
    ensures FirstSends(sends + more) == FirstSends(sends)
    decreases |more|
  {
    if more == [] {
      assert sends + more == sends;
    } else {
      var last := |more| - 1;
      NothingNew(sends, more[..last]);
      assert sends + more == sends + more[..last] + [more[last]];
      FirstSendsOne(sends + more[..last], more[last].0, more[last].1);
    }
  }

  /** What numbers on from `request` and `query` has just the numbers up to the next ones. */
  lemma {:induction false} NumbersKnown<P, Q>(list: seq<Queued<P, Q>>, request: nat, query: nat, nextRequest: nat, nextQuery: nat, m: Outgoing<P, Q>)
    requires NumbersOn(list, request, query, nextRequest, nextQuery)
    requires m.RequestOut? ==> request <= m.number
    requires m.QueryOut? ==> query <= m.number
    ensures Known(list, m) <==> (m.RequestOut? ==> m.number < nextRequest) && (m.QueryOut? ==> m.number < nextQuery)
  {
    NextIsLater(list, request, query, nextRequest, nextQuery);
    if list != [] && !m.Register? {
      var rest := list[1..];
      if Carries(m, list[0]) {
        if list[0].QueuedRequest? {
          NextIsLater(rest, request + 1, query, nextRequest, nextQuery);
        } else {
          NextIsLater(rest, request, query + 1, nextRequest, nextQuery);
        }
      } else {
        if list[0].QueuedRequest? {
          NumbersKnown(rest, request + 1, query, nextRequest, nextQuery, m);
        } else {
          NumbersKnown(rest, request, query + 1, nextRequest, nextQuery, m);
        }
        KnownRest(list, m);
      }
    }
  }

  lemma KnownRest<P, Q>(list: seq<Queued<P, Q>>, m: Outgoing<P, Q>)
    requires list != [] && !Carries(m, list[0])
    ensures Known(list, m) <==> Known(list[1..], m)
  {
    if !m.Register? {
      if i :| 0 <= i < |list| && Carries(m, list[i]) {
        assert list[1..][i - 1] == list[i];
      }
      if i :| 0 <= i < |list[1..]| && Carries(m, list[1..][i]) {
        assert list[i + 1] == list[1..][i];
      }
    }
  }

  /** What went out first, in order, is `gone`, which numbers on. */
  ghost predicate InOrder<P(!new), Q(!new)>(sends: seq<(nat, Outgoing<P, Q>)>, gone: seq<Queued<P, Q>>, base: nat, toRequest: nat, toQuery: nat) {
    NumbersOn(gone, 1, base, toRequest, toQuery) && FirstSends(sends) == gone
  }

  /** The next operation goes. */
  lemma SentInOrder<P(!new), Q(!new)>(sends: seq<(nat, Outgoing<P, Q>)>, gone: seq<Queued<P, Q>>, base: nat, toRequest: nat, toQuery: nat,
                                      to: nat, m: Outgoing<P, Q>)
    requires InOrder(sends, gone, base, toRequest, toQuery) && !m.Register?
    requires m.number == if m.RequestOut? then toRequest else toQuery
    ensures if m.RequestOut? then InOrder(sends + [(to, m)], gone + [Carried(m)], base, toRequest + 1, toQuery)
            else InOrder(sends + [(to, m)], gone + [Carried(m)], base, toRequest, toQuery + 1)
  {
    FirstSendsOne(sends, to, m);
    NextIsLater(gone, 1, base, toRequest, toQuery);
    NumbersKnown(gone, 1, base, toRequest, toQuery, m);
    NumbersOnOne(gone, 1, base, toRequest, toQuery, Carried(m));
  }

  /** What goes again is no news. */
  lemma AgainInOrder<P(!new), Q(!new)>(sends: seq<(nat, Outgoing<P, Q>)>, gone: seq<Queued<P, Q>>, base: nat, toRequest: nat, toQuery: nat,
                                       more: seq<(nat, Outgoing<P, Q>)>)
    requires InOrder(sends, gone, base, toRequest, toQuery)
    requires forall k {:trigger more[k]} :: 0 <= k < |more| ==> SentBefore(more[k].1, base, toRequest, toQuery)
    ensures InOrder(sends + more, gone, base, toRequest, toQuery)
  {
    forall k | 0 <= k < |more|
      ensures Known(FirstSends(sends), more[k].1)
    {
      NumbersKnown(gone, 1, base, toRequest, toQuery, more[k].1);
    }
    NothingNew(sends, more);
  }

  /** Registrations, and operations whose numbers have been sent. */
  predicate SentBefore<P, Q>(m: Outgoing<P, Q>, base: nat, toRequest: nat, toQuery: nat) {
    match m
    case Register => true
    case RequestOut(_, number, _, _) => 1 <= number < toRequest
    case QueryOut(number, _) => base <= number < toQuery
  }

  // ---------------------------------------------------------------------------
  // The client

  class Client<P(!new), Q(!new)> {
    const replicas: nat
    const max: nat
    const id: nat
    var view: nat
    var session: Option<nat>
    var registering: Option<nat>
    var evicted: nat
    var nextRequest: nat
    var nextQuery: nat
    var requests: seq<InFlight<P>>
    var queries: seq<InFlight<Q>>
    var idlePeriods: nat
    var queued: seq<Queued<P, Q>>
    var outbox: seq<(nat, Outgoing<P, Q>)>

    // The numbers to send next, and the first query since the last eviction.
    ghost var toRequest: nat
    ghost var toQuery: nat
    ghost var baseQuery: nat
    // What completed, what was issued and what of it went out, since the last eviction, and every
    // message sent in the session.
    ghost var doneRequests: set<nat>
    ghost var doneQueries: set<nat>
    ghost var issued: seq<Queued<P, Q>>
    ghost var gone: seq<Queued<P, Q>>
    ghost var copies: set<Outgoing<P, Q>>
    // What left the outbox since then.
    ghost var drained: seq<(nat, Outgoing<P, Q>)>

    /** The requests up to this one have their replies. */
    ghost function Answered(): int
      reads this
    {
      Oldest(requests, toRequest) - 1
    }

    ghost predicate SessionOk()
      reads this
    {
      && (registering.Some? ==> session.None?)
      && (session.None? ==> requests == [] && toRequest == 1)
      && (session.Some? ==> session.value > evicted)
      && (session.None? && (exists x :: x in queued && x.QueuedRequest?) ==> registering.Some?)
    }

    /** The operations went out in the order in which they were issued. */
    ghost predicate OrderOk()
      reads this
    {
      InOrder(drained + outbox, gone, baseQuery, toRequest, toQuery)
    }

    /** What holds but while the queue is being sent from. */
    ghost predicate Orderly()
      reads this
    {
      && replicas >= 3 && max >= 1
      && FlightOk(requests, 1, toRequest, max, doneRequests)
      && FlightOk(queries, baseQuery, toQuery, max, doneQueries)
      && (requests == [] || queries == [])
      && NumbersOn(queued, toRequest, toQuery, nextRequest, nextQuery)
      && issued == gone + queued
      && SessionOk()
      && Answered() >= 0 && CopiesOk(copies, session, max, Answered())
      && AllSent(outbox, copies) && OrderOk()
    }

    ghost predicate Valid()
      reads this
    {
      Orderly() && Waits(queued, session, requests, queries, max)
    }

    constructor (replicas: nat, max: nat, id: nat)
      requires replicas >= 3 && max >= 1
      ensures Valid() && this.replicas == replicas && this.max == max && this.id == id
      ensures issued == [] && gone == [] && session.None?
    {
      this.replicas, this.max, this.id := replicas, max, id;
      view, session, registering, evicted := 0, None, None, 0;
      nextRequest, nextQuery, requests, queries := 1, 1, [], [];
      idlePeriods, queued, outbox := 0, [], [];
      toRequest, toQuery, baseQuery := 1, 1, 1;
      doneRequests, doneQueries, issued, gone, copies, drained := {}, {}, [], [], {}, [];
    }

    function Primary(): nat
      reads this
    {
      if replicas == 0 then 0 else view % replicas
    }

    /** What is queued waits for a reason: the session, an operation of the other kind, or a full window. */
    lemma WaitsForReason()
      requires Valid() && queued != []
      ensures queued[0].QueuedRequest? ==>
                (session.None? && registering.Some?) || queries != [] || (requests != [] && toRequest == requests[0].number + max)
      ensures queued[0].QueuedQuery? ==> requests != [] || (queries != [] && toQuery == queries[0].number + max)
    {
      hide InOrder, AllSent, CopiesOk;
    }

    /** What sending changes: a message to the primary that goes in the session. */
    ghost predicate SendingOk()
      reads this
    {
      && max >= 1 && FlightOk(requests, 1, toRequest, max, doneRequests)
      && FlightOk(queries, baseQuery, toQuery, max, doneQueries)
      && (requests == [] || queries == [])
      && Answered() >= 0 && CopiesOk(copies, session, max, Answered())
      && AllSent(outbox, copies) && OrderOk()
    }

    /** Sends a request to the primary, with how far the replies have come, and keeps its op. */
    method SendRequest(session: nat, number: nat, op: P)
      requires SendingOk() && this.session == Some(session) && number == toRequest
      requires RequestMayGo(requests, queries, number, max)
      modifies this`requests, this`outbox, this`toRequest, this`gone, this`copies
      ensures SendingOk() && toRequest == number + 1 && gone == old(gone) + [QueuedRequest(number, op)]
      ensures requests == old(requests) + [InFlight(number, Some(op), idlePeriods)]
      ensures outbox == old(outbox) + [(Primary(), RequestOut(session, number, Oldest(old(requests), number) - 1, op))]
    {
      hide FlightOk, CopiesOk, AllSent, InOrder;
      var oldest := Oldest(requests, number);
      ghost var answered := Answered();
      OldestIn(requests, 1, toRequest, max, doneRequests);
      SentOk(requests, 1, toRequest, max, doneRequests, op, idlePeriods);
      var m := RequestOut(session, number, oldest - 1, op);
      MoreCopies(copies, this.session, max, answered, answered, m);
      MoreSent(outbox, copies, Primary(), m);
      SentInOrder(drained + outbox, gone, baseQuery, toRequest, toQuery, Primary(), m);
      assert drained + outbox + [(Primary(), m)] == drained + (outbox + [(Primary(), m)]);
      requests := requests + [InFlight(number, Some(op), idlePeriods)];
      outbox := outbox + [(Primary(), m)];
      toRequest, gone, copies := number + 1, gone + [QueuedRequest(number, op)], copies + {m};
      assert Answered() == answered;
    }

    /** Sends a query to the primary, and keeps it. */
    method SendQuery(number: nat, query: Q)
      requires SendingOk() && number == toQuery && QueryMayGo(requests, queries, number, max)
      modifies this`queries, this`outbox, this`toQuery, this`gone, this`copies
      ensures SendingOk() && toQuery == number + 1 && gone == old(gone) + [QueuedQuery(number, query)]
      ensures queries == old(queries) + [InFlight(number, Some(query), idlePeriods)]
      ensures outbox == old(outbox) + [(Primary(), QueryOut(number, query))]
    {
      hide FlightOk, CopiesOk, AllSent, InOrder;
      SentOk(queries, baseQuery, toQuery, max, doneQueries, query, idlePeriods);
      var m := QueryOut(number, query);
      MoreCopies(copies, session, max, Answered(), Answered(), m);
      MoreSent(outbox, copies, Primary(), m);
      SentInOrder(drained + outbox, gone, baseQuery, toRequest, toQuery, Primary(), m);
      assert drained + outbox + [(Primary(), m)] == drained + (outbox + [(Primary(), m)]);
      queries := queries + [InFlight(number, Some(query), idlePeriods)];
      outbox := outbox + [(Primary(), m)];
      toQuery, gone, copies := number + 1, gone + [QueuedQuery(number, query)], copies + {m};
    }

    /** Sends the operation at the front of the queue, if it may go. */
    method SendFront() returns (sent: bool)
      requires Orderly() && queued != []
      modifies this`requests, this`queries, this`outbox, this`queued, this`toRequest, this`toQuery, this`gone, this`copies
      ensures Orderly() && old(gone) <= gone && old(outbox) <= outbox
      ensures sent ==> queued == old(queued)[1..]
      ensures !sent ==> Waits(queued, session, requests, queries, max)
    {
      hide FlightOk, CopiesOk, AllSent, InOrder, RequestMayGo, QueryMayGo;
      var x := queued[0];
      ghost var q := queued;
      if x.QueuedRequest? {
        if session.None? || !RequestMayGo(requests, queries, x.number, max) {
          return false;
        }
        queued := queued[1..];
        SendRequest(session.value, x.number, x.op);
      } else {
        if !QueryMayGo(requests, queries, x.number, max) {
          return false;
        }
        queued := queued[1..];
        SendQuery(x.number, x.query);
      }
      assert [x] + q[1..] == q;
      sent := true;
    }

    /** Sends the queued operations that may go, in order: what is left has to wait. */
    method SendQueued()
      requires Orderly()
      modifies this`requests, this`queries, this`outbox, this`queued, this`toRequest, this`toQuery, this`gone, this`copies
      ensures Valid() && old(gone) <= gone && old(outbox) <= outbox
    {
      hide Orderly;
      while queued != []
        invariant Orderly() && old(gone) <= gone && old(outbox) <= outbox
        decreases |queued|
      {
        var sent := SendFront();
        if !sent {
          return;
        }
      }
    }

    /** Asks for a session, unless the client has one or has asked. */
    method Register()
      requires Answered() >= 0 && AllSent(outbox, copies) && CopiesOk(copies, session, max, Answered()) && OrderOk()
      modifies this`registering, this`outbox, this`copies
      ensures AllSent(outbox, copies) && CopiesOk(copies, session, max, Answered()) && OrderOk()
      ensures registering == if old(session.None? && registering.None?) then Some(idlePeriods) else old(registering)
      ensures outbox == old(outbox) + old(Asking())
    {
      hide CopiesOk, AllSent, InOrder;
      if session.None? && registering.None? {
        AgainInOrder(drained + outbox, gone, baseQuery, toRequest, toQuery, [(Primary(), Outgoing<P, Q>.Register)]);
        assert drained + outbox + [(Primary(), Outgoing<P, Q>.Register)] == drained + (outbox + [(Primary(), Outgoing<P, Q>.Register)]);
        MoreCopies(copies, session, max, Answered(), Answered(), Outgoing.Register);
        MoreSent(outbox, copies, Primary(), Outgoing.Register);
        registering := Some(idlePeriods);
        outbox := outbox + [(Primary(), Outgoing.Register)];
        copies := copies + {Outgoing.Register};
      }
    }

    /** Issues a request: it goes at once, or waits its turn. */
    method OnRequest(op: P) returns (number: nat)
      requires Valid()
      modifies this`nextRequest, this`requests, this`outbox, this`queued, this`registering, this`toRequest, this`gone, this`copies, this`issued
      ensures Valid() && number == old(nextRequest) && nextRequest == number + 1
      ensures issued == old(issued) + [QueuedRequest(number, op)] && old(gone) <= gone
      ensures if old(MayGo() && RequestMayGo(requests, queries, nextRequest, max)) then
                queued == [] && outbox == old(outbox) + [(Primary(), RequestOut(session.value, number, Oldest(old(requests), number) - 1, op))]
              else queued == old(queued) + [QueuedRequest(number, op)] && outbox == old(outbox) + old(Asking())
    {
      number := nextRequest;
      hide Valid;
      if MayGo() && RequestMayGo(requests, queries, number, max) {
        SendNow(op);
      } else {
        Enqueue(op);
      }
    }

    /** The registration that goes out, unless there is a session or one is awaited. */
    function Asking(): seq<(nat, Outgoing<P, Q>)>
      reads this
    {
      if session.None? && registering.None? then [(Primary(), Outgoing.Register)] else []
    }

    predicate MayGo()
      reads this
    {
      session.Some? && queued == []
    }

    method SendNow(op: P)
      requires Valid() && MayGo() && RequestMayGo(requests, queries, nextRequest, max)
      modifies this`nextRequest, this`requests, this`outbox, this`toRequest, this`gone, this`copies, this`issued
      ensures Valid() && nextRequest == old(nextRequest) + 1
      ensures issued == old(issued) + [QueuedRequest(old(nextRequest), op)] && old(gone) <= gone
      ensures outbox == old(outbox) + [(Primary(), RequestOut(session.value, old(nextRequest), Oldest(old(requests), old(nextRequest)) - 1, op))]
    {
      hide FlightOk, CopiesOk, AllSent, InOrder;
      SendRequest(session.value, nextRequest, op);
      issued := issued + [QueuedRequest(nextRequest, op)];
      nextRequest := nextRequest + 1;
    }

    method Enqueue(op: P)
      requires Valid() && !(MayGo() && RequestMayGo(requests, queries, nextRequest, max))
      modifies this`nextRequest, this`outbox, this`queued, this`registering, this`copies, this`issued
      ensures Valid() && nextRequest == old(nextRequest) + 1
      ensures issued == old(issued) + [QueuedRequest(old(nextRequest), op)]
      ensures queued == old(queued) + [QueuedRequest(old(nextRequest), op)] && outbox == old(outbox) + old(Asking())
    {
      hide FlightOk, CopiesOk, AllSent, InOrder, RequestMayGo, NumbersOn;
      var x := QueuedRequest(nextRequest, op);
      NumbersOnOne(queued, toRequest, toQuery, nextRequest, nextQuery, x);
      PushWaits(queued, session, requests, queries, max, x);
      hide Waits;
      nextRequest := nextRequest + 1;
      issued := issued + [x];
      queued := queued + [x];
      Register();
    }

    /** Issues a query. */
    method OnQuery(query: Q) returns (number: nat)
      requires Valid()
      modifies this`nextQuery, this`queries, this`outbox, this`queued, this`toQuery, this`gone, this`copies, this`issued
      ensures Valid() && number == old(nextQuery) && nextQuery == number + 1
      ensures issued == old(issued) + [QueuedQuery(number, query)] && old(gone) <= gone
      ensures if old(queued == [] && QueryMayGo(requests, queries, nextQuery, max)) then
                queued == [] && outbox == old(outbox) + [(Primary(), QueryOut(number, query))]
              else queued == old(queued) + [QueuedQuery(number, query)] && outbox == old(outbox)
    {
      hide FlightOk, CopiesOk, AllSent, InOrder, NumbersOn;
      number := nextQuery;
      var x := QueuedQuery(number, query);
      NumbersOnOne(queued, toRequest, toQuery, nextRequest, number, x);
      if queued == [] && QueryMayGo(requests, queries, number, max) {
        NoneQueued(queued, toRequest, toQuery, nextRequest, nextQuery);
        SendQuery(number, query);
        NothingQueued<P, Q>(nextRequest, number + 1);
      } else {
        PushWaits(queued, session, requests, queries, max, x);
        hide Waits;
        queued := queued + [x];
      }
      nextQuery := nextQuery + 1;
      issued := issued + [x];
    }

    /** A registration is answered: with a session later than any evicted, if the client awaits one. */
    method OnRegistered(session': nat)
      requires Valid()
      modifies this`session, this`registering, this`requests, this`queries, this`outbox, this`queued, this`toRequest, this`toQuery,
               this`gone, this`copies
      ensures Valid() && old(gone) <= gone && old(outbox) <= outbox
      ensures session == if old(registering).Some? && session' > evicted then Some(session') else old(session)
    {
      hide FlightOk, NumbersOn, AllSent, InOrder;
      if registering.Some? && session' > evicted {
        NoRequestsYet(copies, session, max, Answered());
        NoCopies(copies, Some(session'), max, Answered());
        registering := None;
        session := Some(session');
        SendQueued();
      }
    }

    /** A request of the session is answered, once. */
    method OnExecuted(session': nat, number: nat) returns (ok: bool)
      requires Valid()
      modifies this`requests, this`queries, this`outbox, this`queued, this`toRequest, this`toQuery, this`gone, this`copies, this`doneRequests
      ensures Valid() && old(gone) <= gone && old(outbox) <= outbox
      ensures ok <==> session == Some(session') && number !in old(doneRequests) && 1 <= number < old(toRequest)
      ensures doneRequests == if ok then old(doneRequests) + {number} else old(doneRequests)
    {
      hide NumbersOn, AllSent, FlightOk, CopiesOk, InOrder;
      if session != Some(session') {
        return false;
      }
      var rest;
      ghost var answered := Answered();
      rest, ok := Answer(requests, number, 1, toRequest, max, doneRequests);
      if !ok {
        return;
      }
      ghost var done := doneRequests + {number};
      OldestLater(requests, rest, 1, toRequest, max, doneRequests, done);
      LaterCopies(copies, session, max, answered, Oldest(rest, toRequest) - 1);
      requests, doneRequests := rest, done;
      SendQueued();
    }

    method OnQueried(number: nat) returns (ok: bool)
      requires Valid()
      modifies this`requests, this`queries, this`outbox, this`queued, this`toRequest, this`toQuery, this`gone, this`copies, this`doneQueries
      ensures Valid() && old(gone) <= gone && old(outbox) <= outbox
      ensures ok <==> number !in old(doneQueries) && baseQuery <= number < old(toQuery)
      ensures doneQueries == if ok then old(doneQueries) + {number} else old(doneQueries)
    {
      hide NumbersOn, AllSent, FlightOk, CopiesOk, InOrder;
      var rest;
      rest, ok := Answer(queries, number, baseQuery, toQuery, max, doneQueries);
      if !ok {
        return;
      }
      NoMore(queries, rest, baseQuery, toQuery, max, doneQueries, doneQueries + {number});
      queries, doneQueries := rest, doneQueries + {number};
      SendQueued();
    }

    /** The session is gone: the client starts over, but for the numbers of queries. */
    method OnEvicted()
      requires Valid() && session.Some?
      modifies this`evicted, this`session, this`nextRequest, this`requests, this`queries, this`queued, this`outbox, this`toRequest,
               this`toQuery, this`baseQuery, this`doneRequests, this`doneQueries, this`issued, this`gone, this`copies, this`drained
      ensures Valid() && session.None? && evicted == old(session).value
      ensures forall x :: x in outbox <==> x in old(outbox) && x.1.Register?
      ensures requests == [] && queries == [] && queued == [] && issued == [] && nextRequest == 1
      ensures baseQuery == nextQuery && doneRequests == {} && doneQueries == {}
    {
      hide FlightOk, NumbersOn, CopiesOk, AllSent, InOrder;
      NextIsLater(queued, toRequest, toQuery, nextRequest, nextQuery);
      BaseIn(queries, baseQuery, toQuery, max, doneQueries);
      StartOver();
      NothingYet<P>(1, max);
      NothingYet<Q>(nextQuery, max);
      NothingQueued<P, Q>(1, nextQuery);
    }

    method StartOver()
      requires session.Some?
      modifies this`evicted, this`session, this`nextRequest, this`requests, this`queries, this`queued, this`outbox, this`toRequest,
               this`toQuery, this`baseQuery, this`doneRequests, this`doneQueries, this`issued, this`gone, this`copies, this`drained
      ensures forall x :: x in outbox <==> x in old(outbox) && x.1.Register?
      ensures OrderOk()
      ensures evicted == old(session).value && session.None? && nextRequest == 1 && requests == [] && queries == [] && queued == []
      ensures toRequest == 1 && toQuery == baseQuery == nextQuery && doneRequests == {} && doneQueries == {} && issued == [] && gone == []
      ensures AllSent(outbox, copies) && CopiesOk(copies, session, max, 0)
    {
      hide AllSent, CopiesOk, InOrder;
      ghost var kept := {Outgoing<P, Q>.Register};
      NoCopies(kept, None, max, 0);
      outbox := OnlyRegistrations(outbox);
      Clear();
      evicted := session.value;
      session := None;
      nextRequest := 1;
      copies := kept;
      drained := [];
      NothingSent<P, Q>(nextQuery);
      AgainInOrder([], [], nextQuery, 1, nextQuery, outbox);
      assert drained + outbox == [] + outbox;
    }

    method Clear()
      modifies this`requests, this`queries, this`queued, this`toRequest, this`toQuery, this`baseQuery, this`doneRequests, this`doneQueries,
               this`issued, this`gone
      ensures requests == [] && queries == [] && queued == [] && issued == [] && gone == []
      ensures toRequest == 1 && toQuery == baseQuery == nextQuery && doneRequests == {} && doneQueries == {}
    {
      requests, queries, queued := [], [], [];
      toRequest, toQuery, baseQuery, doneRequests, doneQueries := 1, nextQuery, nextQuery, {}, {};
      issued, gone := [], [];
    }

    /** A reply: what it completes had been sent and not completed before. */
    method OnReply<O(!new)>(reply: Reply<O>) returns (done: Option<Completion<O>>)
      requires Valid()
      modifies this
      ensures Valid() && nextQuery == old(nextQuery)
      ensures view == if reply.client == id then Max(old(view), reply.view) else old(view)
      ensures reply.Registered? && reply.client == id ==>
                session == if old(registering).Some? && reply.session > old(evicted) then Some(reply.session) else old(session)
      ensures done.Some? && done.value.RequestDone? ==>
                var n := done.value.number;
                n !in old(doneRequests) && 1 <= n < old(toRequest) && doneRequests == old(doneRequests) + {n} && doneQueries == old(doneQueries)
      ensures done.Some? && done.value.QueryDone? ==>
                var n := done.value.number;
                n !in old(doneQueries) && old(baseQuery) <= n < old(toQuery) && doneQueries == old(doneQueries) + {n} && doneRequests == old(doneRequests)
      ensures done == Some(SessionLost) <==> reply.Evicted? && reply.client == id && old(session) == Some(reply.session)
      ensures done == Some(SessionLost) ==> session.None? && issued == [] && evicted == old(session).value && baseQuery == nextQuery
      ensures done.None? ==> doneRequests == old(doneRequests) && doneQueries == old(doneQueries)
      ensures done != Some(SessionLost) ==> issued == old(issued) && old(gone) <= gone && baseQuery == old(baseQuery) && old(outbox) <= outbox
      ensures reply.Executed? && reply.client == id && old(session) == Some(reply.session) ==>
                (reply.number !in old(doneRequests) && 1 <= reply.number < old(toRequest) <==> done == Some(RequestDone(reply.number, reply.result)))
      ensures reply.Queried? && reply.client == id ==>
                (reply.number !in old(doneQueries) && old(baseQuery) <= reply.number < old(toQuery) <==> done == Some(QueryDone(reply.number, reply.result)))
    {
      hide FlightOk, NumbersOn, CopiesOk, AllSent, Waits, InOrder;
      if reply.client != id {
        return None;
      }
      view := Max(view, reply.view);
      match reply
      case Registered(_, _, s) =>
        OnRegistered(s);
        done := None;
      case Executed(_, _, s, n, x) =>
        var ok := OnExecuted(s, n);
        done := if ok then Some(RequestDone(n, x)) else None;
      case Queried(_, _, n, x) =>
        var ok := OnQueried(n);
        done := if ok then Some(QueryDone(n, x)) else None;
      case Evicted(_, _, s) =>
        if session != Some(s) {
          return None;
        }
        OnEvicted();
        done := Some(SessionLost);
    }

    method SendToAll(ms: seq<Outgoing<P, Q>>)
      requires Answered() >= 0 && AllSent(outbox, copies) && CopiesOk(copies, session, max, Answered()) && OrderOk()
      requires forall m {:trigger m in ms} :: m in ms ==> CopyOk(m, session, max, Answered()) && SentBefore(m, baseQuery, toRequest, toQuery)
      modifies this`outbox, this`copies
      ensures AllSent(outbox, copies) && CopiesOk(copies, session, max, Answered()) && OrderOk()
      ensures outbox == old(outbox) + Broadcast(ms, replicas) && forall m {:trigger m in ms} :: m in ms ==> Everyone(outbox, m, replicas)
    {
      hide AllSent, CopiesOk, CopyOk, InOrder, SentBefore;
      forall k | 0 <= k < |Broadcast(ms, replicas)|
        ensures SentBefore(Broadcast(ms, replicas)[k].1, baseQuery, toRequest, toQuery)
      {
        BroadcastAll(ms, replicas, Broadcast(ms, replicas)[k]);
      }
      AgainInOrder(drained + outbox, gone, baseQuery, toRequest, toQuery, Broadcast(ms, replicas));
      assert drained + outbox + Broadcast(ms, replicas) == drained + (outbox + Broadcast(ms, replicas));
      AllCopies(copies, session, max, Answered(), ms);
      AllBroadcast(outbox, copies, ms, replicas);
      outbox := outbox + Broadcast(ms, replicas);
      copies := copies + set m | m in ms;
    }

    /** An idle period passes: what went a whole one without a reply, a registration first, goes to every
        replica again, with how far the replies have come by now, and nothing else goes. */
    method OnIdle()
      requires Valid()
      modifies this`idlePeriods, this`registering, this`requests, this`queries, this`outbox, this`copies
      ensures Valid() && idlePeriods == old(idlePeriods) + 1
      ensures var asks := Waited(old(registering), idlePeriods);
              && registering == (if asks then Some(idlePeriods) else old(registering))
              && outbox == old(outbox) + Broadcast(Again<P, Q>(asks, session, old(requests), old(queries), idlePeriods), replicas)
      ensures old(registering).Some? && old(registering).value + 1 < idlePeriods ==>
                registering == Some(idlePeriods) && Everyone(outbox, Outgoing.Register, replicas)
      ensures requests == Refresh(old(requests), idlePeriods) && queries == Refresh(old(queries), idlePeriods)
      ensures forall x {:trigger x in old(requests)} :: x in old(requests) && x.item.Some? && x.sent + 1 < idlePeriods ==>
                session.Some? && Everyone(outbox, RequestOut(session.value, x.number, Answered(), x.item.value), replicas)
      ensures forall x {:trigger x in old(queries)} :: x in old(queries) && x.item.Some? && x.sent + 1 < idlePeriods ==>
                Everyone(outbox, QueryOut(x.number, x.item.value), replicas)
    {
      hide FlightOk, CopiesOk, AllSent, NumbersOn, Refresh, Waits, Everyone, InOrder, Again, Broadcast;
      var now := idlePeriods + 1;
      var asks := Waited(registering, now);
      Resend(now, asks);
      RefreshOk(requests, 1, toRequest, max, doneRequests, now);
      RefreshOk(queries, baseQuery, toQuery, max, doneQueries, now);
      RefreshWaits(queued, session, requests, queries, toRequest, toQuery, max, now);
      Touch(now, asks);
    }

    method Touch(now: nat, asks: bool)
      modifies this`idlePeriods, this`registering, this`requests, this`queries
      ensures idlePeriods == now && registering == if asks then Some(now) else old(registering)
      ensures requests == Refresh(old(requests), now) && queries == Refresh(old(queries), now)
    {
      idlePeriods := now;
      registering := if asks then Some(now) else registering;
      requests, queries := Refresh(requests, now), Refresh(queries, now);
    }

    method Resend(now: nat, asks: bool)
      requires Valid()
      modifies this`outbox, this`copies
      ensures Valid() && outbox == old(outbox) + Broadcast(Again<P, Q>(asks, session, requests, queries, now), replicas)
      ensures asks ==> Everyone(outbox, Outgoing.Register, replicas)
      ensures forall x {:trigger x in requests} :: x in requests && Due(x, now) ==>
                session.Some? && Everyone(outbox, RequestOut(session.value, x.number, Answered(), x.item.value), replicas)
      ensures forall x {:trigger x in queries} :: x in queries && Due(x, now) ==> Everyone(outbox, QueryOut(x.number, x.item.value), replicas)
    {
      hide FlightOk, CopiesOk, AllSent, NumbersOn, Waits, RequestsAgain, QueriesAgain, Everyone, InOrder, SentBefore, CopyOk;
      OldestIn(requests, 1, toRequest, max, doneRequests);
      AgainOk<P, Q>(requests, 1, toRequest, max, doneRequests, session, now);
      var first := if asks then [Outgoing<P, Q>.Register] else [];
      var again, more := RequestsAgain(requests, session, now), QueriesAgain<P, Q>(queries, now);
      var ms := first + again + more;
      QueriesBefore<P, Q>(queries, baseQuery, toQuery, max, doneQueries, now, toRequest);
      RequestsBefore<P, Q>(requests, 1, toRequest, max, doneRequests, session, now, baseQuery, toQuery);
      assert forall m :: m in first ==> CopyOk(m, session, max, Answered()) && SentBefore(m, baseQuery, toRequest, toQuery) by {
        RegisterBefore<P, Q>(session, max, Answered(), baseQuery, toRequest, toQuery);
      }
      SendToAll(ms);
      if asks {
        assert ms[0] == Outgoing.Register && Outgoing.Register in ms;
      }
      forall x | x in requests && Due(x, now)
        ensures session.Some? && Everyone(outbox, RequestOut(session.value, x.number, Answered(), x.item.value), replicas)
      {
        assert RequestOut(session.value, x.number, Answered(), x.item.value) in again;
        assert RequestOut(session.value, x.number, Answered(), x.item.value) in ms;
      }
      forall x | x in queries && Due(x, now)
        ensures Everyone(outbox, QueryOut(x.number, x.item.value), replicas)
      {
        assert QueryOut(x.number, x.item.value) in more;
        assert QueryOut(x.number, x.item.value) in ms;
      }
    }

    /** The messages to send leave. */
    method Drain() returns (messages: seq<(nat, Outgoing<P, Q>)>)
      requires Valid()
      modifies this`outbox, this`drained
      ensures Valid() && outbox == [] && messages == old(outbox) && drained == old(drained) + messages
    {
      messages := outbox;
      drained := drained + outbox;
      outbox := [];
      assert drained + outbox == old(drained + outbox);
    }
  }

  /** A request or query without a reply that was last sent before the last idle period. */
  predicate Due<T>(x: InFlight<T>, now: nat) { x.item.Some? && x.sent + 1 < now }

  /** A registration that was last sent before the last idle period. */
  predicate Waited(registering: Option<nat>, now: nat) { registering.Some? && registering.value + 1 < now }

  /** What goes out again: the registration if asked for, the requests and then the queries that are due. */
  function Again<P, Q>(asks: bool, session: Option<nat>, requests: seq<InFlight<P>>, queries: seq<InFlight<Q>>, now: nat): seq<Outgoing<P, Q>> {
    (if asks then [Outgoing<P, Q>.Register] else []) + RequestsAgain(requests, session, now) + QueriesAgain(queries, now)
  }

  predicate Everyone<P(==), Q(==)>(outbox: seq<(nat, Outgoing<P, Q>)>, m: Outgoing<P, Q>, replicas: nat) {
    forall to: nat :: to < replicas ==> (to, m) in outbox
  }

  function Refresh<T>(flight: seq<InFlight<T>>, now: nat): seq<InFlight<T>> {
    seq(|flight|, i requires 0 <= i < |flight| => if Due(flight[i], now) then flight[i].(sent := now) else flight[i])
  }

  lemma RefreshOk<T>(flight: seq<InFlight<T>>, base: nat, end: nat, max: nat, done: set<nat>, now: nat)
    requires FlightOk(flight, base, end, max, done)
    ensures FlightOk(Refresh(flight, now), base, end, max, done)
    ensures |Refresh(flight, now)| == |flight| && Oldest(Refresh(flight, now), end) == Oldest(flight, end)
  {
  }

  lemma RefreshWaits<P, Q>(queued: seq<Queued<P, Q>>, session: Option<nat>, requests: seq<InFlight<P>>, queries: seq<InFlight<Q>>,
                           toRequest: nat, toQuery: nat, max: nat, now: nat)
    requires Waits(queued, session, requests, queries, max)
    ensures Waits(queued, session, Refresh(requests, now), Refresh(queries, now), max)
  {
  }

  /** The requests that are due again. */
  function RequestsAgain<P, Q>(flight: seq<InFlight<P>>, session: Option<nat>, now: nat): (ms: seq<Outgoing<P, Q>>)
    ensures session.Some? && flight != [] && flight[0].number > 0 ==>
              forall x {:trigger x in flight} :: x in flight && Due(x, now) ==>
                RequestOut(session.value, x.number, flight[0].number - 1, x.item.value) in ms
  {
    if session.None? || flight == [] || flight[0].number == 0 then []
    else Requests(flight, session.value, flight[0].number - 1, now)
  }

  function Requests<P, Q>(flight: seq<InFlight<P>>, session: nat, answered: nat, now: nat): (ms: seq<Outgoing<P, Q>>)
    ensures forall x {:trigger x in flight} :: x in flight && Due(x, now) ==> RequestOut(session, x.number, answered, x.item.value) in ms
    ensures forall m {:trigger m in ms} :: m in ms ==>
              exists i :: 0 <= i < |flight| && Due(flight[i], now)
                && m == RequestOut(session, flight[i].number, answered, flight[i].item.value)
  {
    if flight == [] then []
    else
      assert flight == [flight[0]] + flight[1..];
      var rest := Requests(flight[1..], session, answered, now);
      if Due(flight[0], now) then [RequestOut(session, flight[0].number, answered, flight[0].item.value)] + rest else rest
  }

  function QueriesAgain<P, Q>(flight: seq<InFlight<Q>>, now: nat): (ms: seq<Outgoing<P, Q>>)
    ensures forall x {:trigger x in flight} :: x in flight && Due(x, now) ==> QueryOut(x.number, x.item.value) in ms
    ensures forall m {:trigger m in ms} :: m in ms ==>
              exists i :: 0 <= i < |flight| && Due(flight[i], now) && m == QueryOut(flight[i].number, flight[i].item.value)
  {
    if flight == [] then []
    else
      assert flight == [flight[0]] + flight[1..];
      var rest := QueriesAgain(flight[1..], now);
      if Due(flight[0], now) then [QueryOut(flight[0].number, flight[0].item.value)] + rest else rest
  }

  lemma AgainOk<P, Q>(flight: seq<InFlight<P>>, base: nat, end: nat, max: nat, done: set<nat>, session: Option<nat>, now: nat)
    requires FlightOk(flight, base, end, max, done)
    ensures forall m {:trigger m in RequestsAgain<P, Q>(flight, session, now)} ::
              m in RequestsAgain<P, Q>(flight, session, now) ==> CopyOk(m, session, max, Oldest(flight, end) - 1)
  {
  }

  lemma RequestsBefore<P, Q>(flight: seq<InFlight<P>>, base: nat, end: nat, max: nat, done: set<nat>, session: Option<nat>, now: nat,
                             baseQuery: nat, toQuery: nat)
    requires FlightOk(flight, base, end, max, done)
    ensures forall m {:trigger m in RequestsAgain<P, Q>(flight, session, now)} ::
              m in RequestsAgain<P, Q>(flight, session, now) ==> SentBefore(m, baseQuery, end, toQuery)
  {
  }

  lemma QueriesBefore<P, Q>(flight: seq<InFlight<Q>>, base: nat, end: nat, max: nat, done: set<nat>, now: nat, toRequest: nat)
    requires FlightOk(flight, base, end, max, done)
    ensures forall m {:trigger m in QueriesAgain<P, Q>(flight, now)} ::
              m in QueriesAgain<P, Q>(flight, now) ==> SentBefore(m, base, toRequest, end) && forall session, max, answered :: CopyOk(m, session, max, answered)
  {
  }

  lemma RegisterBefore<P, Q>(session: Option<nat>, max: nat, answered: nat, base: nat, toRequest: nat, toQuery: nat)
    ensures CopyOk(Outgoing<P, Q>.Register, session, max, answered) && SentBefore(Outgoing<P, Q>.Register, base, toRequest, toQuery)
  {
  }

  lemma AllCopies<P, Q>(copies: set<Outgoing<P, Q>>, session: Option<nat>, max: nat, answered: nat, ms: seq<Outgoing<P, Q>>)
    requires CopiesOk(copies, session, max, answered) && forall m :: m in ms ==> CopyOk(m, session, max, answered)
    ensures CopiesOk(copies + (set m | m in ms), session, max, answered)
  {
  }

  /** Each message to each replica. */
  function Broadcast<P, Q>(ms: seq<Outgoing<P, Q>>, replicas: nat): (all: seq<(nat, Outgoing<P, Q>)>) {
    if ms == [] then [] else seq(replicas, to => (to, ms[0])) + Broadcast(ms[1..], replicas)
  }

  lemma {:induction false} BroadcastAll<P, Q>(ms: seq<Outgoing<P, Q>>, replicas: nat, x: (nat, Outgoing<P, Q>))
    ensures x in Broadcast(ms, replicas) <==> x.0 < replicas && x.1 in ms
  {
    if ms != [] {
      BroadcastAll(ms[1..], replicas, x);
      var first := seq(replicas, to => (to, ms[0]));
      assert ms == [ms[0]] + ms[1..];
      assert x.0 < replicas && x.1 == ms[0] ==> first[x.0] == x;
    }
  }

  lemma AllBroadcast<P, Q>(outbox: seq<(nat, Outgoing<P, Q>)>, copies: set<Outgoing<P, Q>>, ms: seq<Outgoing<P, Q>>, replicas: nat)
    requires AllSent(outbox, copies)
    ensures AllSent(outbox + Broadcast(ms, replicas), copies + set m | m in ms)
    ensures forall m {:trigger m in ms} :: m in ms ==> Everyone(outbox + Broadcast(ms, replicas), m, replicas)
  {
    var all := outbox + Broadcast(ms, replicas);
    forall k | 0 <= k < |all|
      ensures all[k].1 in copies + set m | m in ms
    {
      if k >= |outbox| {
        BroadcastAll(ms, replicas, all[k]);
      }
    }
    forall m, to: nat | to < replicas && m in ms
      ensures (to, m) in all
    {
      BroadcastAll(ms, replicas, (to, m));
    }
  }

  function OnlyRegistrations<P(!new), Q(!new)>(outbox: seq<(nat, Outgoing<P, Q>)>): (kept: seq<(nat, Outgoing<P, Q>)>)
    ensures AllSent(kept, {Outgoing<P, Q>.Register})
    ensures forall x :: x in kept <==> x in outbox && x.1.Register?
  {
    if outbox == [] then []
    else
      var rest := OnlyRegistrations(outbox[1..]);
      assert outbox == [outbox[0]] + outbox[1..];
      if outbox[0].1.Register? then [outbox[0]] + rest else rest
  }

  /** What waits behind an operation that waits, waits. */
  lemma PushWaits<P, Q>(queued: seq<Queued<P, Q>>, session: Option<nat>, requests: seq<InFlight<P>>, queries: seq<InFlight<Q>>, max: nat, x: Queued<P, Q>)
    requires Waits(queued, session, requests, queries, max)
    requires queued == [] ==> Waits([x], session, requests, queries, max)
    ensures Waits(queued + [x], session, requests, queries, max)
  {
    if queued == [] {
      assert queued + [x] == [x];
    }
  }

  lemma NoRequestsYet<P, Q>(copies: set<Outgoing<P, Q>>, session: Option<nat>, max: nat, answered: nat)
    requires CopiesOk(copies, session, max, answered) && session.None?
    ensures forall m :: m in copies ==> !m.RequestOut?
  {
    forall m | m in copies
      ensures !m.RequestOut?
    {
      assert CopyOk(m, session, max, answered);
    }
  }

  lemma LaterCopies<P, Q>(copies: set<Outgoing<P, Q>>, session: Option<nat>, max: nat, answered: nat, answered': nat)
    requires CopiesOk(copies, session, max, answered) && answered <= answered'
    ensures CopiesOk(copies, session, max, answered')
  {
    forall m | m in copies
      ensures CopyOk(m, session, max, answered')
    {
      assert CopyOk(m, session, max, answered);
    }
  }

  /** With more answered, the oldest in flight is no earlier. */
  lemma OldestLater<T>(flight: seq<InFlight<T>>, rest: seq<InFlight<T>>, base: nat, end: nat, max: nat, done: set<nat>, done': set<nat>)
    requires FlightOk(flight, base, end, max, done) && FlightOk(rest, base, end, max, done') && done <= done' && flight != []
    ensures base <= Oldest(flight, end) <= Oldest(rest, end)
  {
    assert rest != [] ==> rest[0].number !in done;
  }

  lemma NoMore<T>(flight: seq<InFlight<T>>, rest: seq<InFlight<T>>, base: nat, end: nat, max: nat, done: set<nat>, done': set<nat>)
    requires FlightOk(flight, base, end, max, done) && FlightOk(rest, base, end, max, done') && done <= done'
    ensures flight == [] ==> rest == []
  {
    assert rest != [] ==> rest[0].number !in done;
  }

  lemma NothingYet<T>(base: nat, max: nat)
    requires base >= 1
    ensures FlightOk<T>([], base, base, max, {})
  {
  }

  lemma NoneQueued<P, Q>(queued: seq<Queued<P, Q>>, request: nat, query: nat, nextRequest: nat, nextQuery: nat)
    requires NumbersOn(queued, request, query, nextRequest, nextQuery) && queued == []
    ensures request == nextRequest && query == nextQuery
  {
  }

  lemma NothingSent<P(!new), Q(!new)>(query: nat)
    ensures InOrder<P, Q>([], [], query, 1, query)
  {
  }

  lemma NothingQueued<P, Q>(request: nat, query: nat)
    ensures NumbersOn<P, Q>([], request, query, request, query)
  {
  }

  lemma BaseIn<T>(flight: seq<InFlight<T>>, base: nat, end: nat, max: nat, done: set<nat>)
    requires FlightOk(flight, base, end, max, done)
    ensures 1 <= base <= end
  {
  }

  lemma {:induction false} NextIsLater<P, Q>(queued: seq<Queued<P, Q>>, request: nat, query: nat, nextRequest: nat, nextQuery: nat)
    requires NumbersOn(queued, request, query, nextRequest, nextQuery)
    ensures request <= nextRequest && query <= nextQuery
  {
    if queued != [] {
      if queued[0].QueuedRequest? {
        NextIsLater(queued[1..], request + 1, query, nextRequest, nextQuery);
      } else {
        NextIsLater(queued[1..], request, query + 1, nextRequest, nextQuery);
      }
    }
  }

  lemma OldestIn<T>(flight: seq<InFlight<T>>, base: nat, end: nat, max: nat, done: set<nat>)
    requires FlightOk(flight, base, end, max, done)
    ensures base <= Oldest(flight, end) <= end
  {
  }

  lemma MoreSent<P, Q>(outbox: seq<(nat, Outgoing<P, Q>)>, copies: set<Outgoing<P, Q>>, to: nat, m: Outgoing<P, Q>)
    requires AllSent(outbox, copies)
    ensures AllSent(outbox + [(to, m)], copies + {m})
  {
  }
}
