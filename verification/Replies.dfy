/** No reply is lost: the client's promise about what it sends meets the client table's about what it
    keeps. */
module Replies {
  import opened Types
  import opened Sessions
  import O = Ordering
  import C = Client

  /** The requests of session `s` of client `c` in the log are copies of what the client sent. */
  ghost predicate Copied<Q(!new)>(log: Log, c: nat, s: nat, copies: set<C.Outgoing<Op, Q>>) {
    forall k {:trigger log[k]} :: 0 <= k < |log| && log[k].Request? && log[k].client == c && log[k].session == s ==>
      C.RequestOut(s, log[k].number, log[k].answered, log[k].op) in copies
  }

  /** The replies a client had when it sent what the log holds are no more than it has now. */
  lemma SentCopies<Q(!new)>(lim: Limits, client: C.Client<Op, Q>, log: Log, c: nat, s: nat)
    requires client.Valid() && client.max == lim.inFlight && client.session == Some(s) && Copied(log, c, s, client.copies)
    ensures client.Answered() >= 0 && O.CopiesOk(lim, log, c, s, client.Answered())
  {
    hide C.FlightOk, C.NumbersOn, C.InOrder, C.AllSent, C.Waits;
    forall k | 0 <= k < |log| && log[k].Request? && log[k].client == c && log[k].session == s
      ensures log[k].answered <= client.Answered() && log[k].number <= log[k].answered + lim.inFlight
    {
      var m := C.RequestOut(s, log[k].number, log[k].answered, log[k].op);
      assert m in client.copies && C.CopyOk(m, client.session, client.max, client.Answered());
    }
  }

  /** What is in flight without a reply comes after what has one. */
  lemma AwaitedLater<P(!new), Q(!new)>(client: C.Client<P, Q>, n: nat)
    requires client.Valid() && C.Awaits(client.requests, n)
    ensures 0 <= client.Answered() < n
  {
    hide C.NumbersOn, C.InOrder, C.AllSent, C.Waits, C.CopiesOk;
  }

  /** A request that its client still waits for, and that executed in the client's session, is answered
      from the table when it is sent again, with its own result: whatever the client has sent, and
      whichever of it the log holds. */
  lemma Answerable<Q(!new)>(lim: Limits, client: C.Client<Op, Q>, log: Log, applied: nat, s: nat, n: nat)
    requires lim.Valid() && O.Good(lim, log) && applied <= |log|
    requires client.Valid() && client.max == lim.inFlight && client.session == Some(s) && Copied(log, client.id, s, client.copies)
    requires C.Awaits(client.requests, n)
    requires var table := After(lim, log, applied).table; InSession(table, client.id, s) && n <= table[client.id].number
    ensures var m := After(lim, log, applied);
            var r := m.table[client.id];
            var index := |r.replies| - (r.number - n + 1);
            0 <= index < |r.replies| && HasResult(m.results, Id(client.id, s, n), r.replies[index])
  {
    hide C.FlightOk, C.NumbersOn, C.InOrder, C.AllSent, C.Waits, C.CopiesOk, O.CopiesOk, Fold;
    var executed := log[..applied];
    assert Copied(executed, client.id, s, client.copies);
    SentCopies(lim, client, executed, client.id, s);
    AwaitedLater(client, n);
    assert !After(lim, log, applied).skipped by {
      AfterAll(lim, log);
      O.SkippedStays(lim, log, applied, |log|);
    }
    O.ReplyRetained(lim, executed, client.id, s, client.Answered(), n);
  }
}
