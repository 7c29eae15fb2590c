/** How a replica comes by the log of another: the entries after an op, or where those are compacted a
    checkpoint and the entries after it. */
module Transfer {
  import opened Types
  import opened WritePipeline

  /** The log since the beginning: what the state machine executed of the ops compacted, and the rest. */
  function Whole(mem: Image, sm: Log): Log
    requires mem.logStart <= |sm|
  {
    sm[..mem.logStart] + mem.log
  }

  /** What executed, the log has, and what is committed is its start. */
  lemma WholeCommitted(mem: Image, flushed: nat, sm: Log)
    requires MemoryOk(mem, flushed, sm)
    ensures |sm| <= mem.commit <= |Whole(mem, sm)|
    ensures CommittedOps(mem, sm) == Whole(mem, sm)[..mem.commit] && sm <= CommittedOps(mem, sm)
  {
    var n := |sm| - mem.logStart;
    var whole := Whole(mem, sm);
    forall k | 0 <= k < |sm|
      ensures whole[k] == sm[k]
    {
      if k >= mem.logStart {
        assert mem.log[..n][k - mem.logStart] == sm[mem.logStart..][k - mem.logStart];
      }
    }
    forall k | |sm| <= k < mem.commit
      ensures whole[k] == CommittedOps(mem, sm)[k]
    {
      assert whole[k] == mem.log[k - mem.logStart];
    }
  }

  /** The log after an op that is not compacted. */
  lemma WholeAfter(mem: Image, flushed: nat, sm: Log, base: nat)
    requires MemoryOk(mem, flushed, sm) && mem.logStart <= base <= mem.End()
    ensures Whole(mem, sm)[base..] == mem.log[base - mem.logStart..] && |Whole(mem, sm)| == mem.End()
  {
  }

  /** Executing more leaves the log as it is. */
  lemma WholeStays(mem: Image, mem': Image, flushed: nat, sm: Log, sm': Log)
    requires MemoryOk(mem, flushed, sm) && sm <= sm' && mem' == mem.(commit := mem'.commit)
    ensures Whole(mem', sm') == Whole(mem, sm)
  {
    assert sm'[..mem.logStart] == sm[..mem.logStart];
  }

  /** A log whose entries after what is committed give way to those of another, of which no less is
      committed, is that other: what is committed of the two is the same as far as it goes. */
  lemma MergedWhole(mem: Image, flushed: nat, sm: Log, whole: Log, commit: nat, base: nat, completed: Log)
    requires MemoryOk(mem, flushed, sm) && base <= mem.commit <= commit <= |whole|
    requires CommittedOps(mem, sm) <= completed && whole[..commit] <= completed
    ensures Whole(mem.(log := mem.log[..mem.commit - mem.logStart] + Drop(whole[base..], mem.commit - base)), sm) == whole
  {
    WholeCommitted(mem, flushed, sm);
    var c := mem.commit;
    var kept, rest := mem.log[..c - mem.logStart], Drop(whole[base..], c - base);
    assert sm[..mem.logStart] + kept == CommittedOps(mem, sm) == whole[..c];
    assert rest == whole[c..];
    hide CommittedOps, MemoryOk;
    assert sm[..mem.logStart] + (kept + rest) == (sm[..mem.logStart] + kept) + rest == whole[..c] + whole[c..];
  }

  /** A replica asks another for the log after `op`, when that was committed, gets a segment of it, and
      installs it over what is not committed, by then perhaps more.  A checkpoint beyond that replaces
      the log.  What `completed` says is that the two know ops of one history as committed. */
  method CatchUp(receiver: Node, sender: Node, op: nat, at: nat, ghost completed: Log) returns (answered: bool)
    requires receiver.Valid() && sender.Valid() && receiver != sender && receiver.disk != sender.disk
    requires op <= receiver.commit && sender.logStart <= at <= |sender.sm|
    requires CommittedOps(receiver.Memory(), receiver.sm) <= completed && CommittedOps(sender.Memory(), sender.sm) <= completed
    modifies receiver, sender`serving
    ensures receiver.Valid() && sender.Valid() && (answered <==> op <= sender.Memory().End())
    ensures answered ==> receiver.commit == Max(old(receiver.commit), sender.commit)
    ensures answered && old(receiver.commit) <= sender.commit ==>
              && Whole(receiver.Memory(), receiver.sm) == Whole(sender.Memory(), sender.sm)
              && CommittedOps(receiver.Memory(), receiver.sm) == CommittedOps(sender.Memory(), sender.sm)
    ensures !answered || old(receiver.commit) >= sender.commit ==>
              CommittedOps(receiver.Memory(), receiver.sm) == old(CommittedOps(receiver.Memory(), receiver.sm))
  {
    hide Ok, MemoryOk, CommittedOps, Whole;
    MemoryPart(receiver.Abs());
    MemoryPart(sender.Abs());
    WholeCommitted(sender.Memory(), sender.flushed, sender.sm);
    if op > sender.Memory().End() {
      return false;
    }
    var base, checkpoint, entries := sender.SegmentFrom(op, at);
    WholeAfter(sender.Memory(), sender.flushed, sender.sm, base);
    if base > receiver.commit {
      Resume(receiver, sender.sm[..base], entries, sender.commit, sender.Abs(), completed);
    } else {
      InstallFromCommit(receiver, base, entries, sender.commit, sender.Abs(), completed);
    }
    return true;
  }

  /** What a replica in state `s` sends. */
  ghost predicate SentBy(s: State, base: nat, entries: Log, commit: nat) {
    && MemoryOk(s.mem, s.flushed, s.sm) && s.mem.logStart <= base <= s.mem.End()
    && entries == s.mem.log[base - s.mem.logStart..] && commit == s.mem.commit
  }

  /** A checkpoint and the entries after it are the log of the replica that sent them. */
  lemma SentWhole(s: State, checkpoint: Log, entries: Log, commit: nat)
    requires SentBy(s, |checkpoint|, entries, commit) && checkpoint <= s.sm
    ensures checkpoint + entries == Whole(s.mem, s.sm) && checkpoint <= CommittedOps(s.mem, s.sm)
    ensures |checkpoint| <= commit <= |checkpoint| + |entries| && MemoryOk(s.mem, s.flushed, s.sm) && commit == s.mem.commit
  {
    hide MemoryOk, CommittedOps;
    WholeCommitted(s.mem, s.flushed, s.sm);
    WholeAfter(s.mem, s.flushed, s.sm, |checkpoint|);
    hide Whole;
    assert s.sm <= Whole(s.mem, s.sm);
    assert Whole(s.mem, s.sm) == Whole(s.mem, s.sm)[..|checkpoint|] + Whole(s.mem, s.sm)[|checkpoint|..];
  }

  lemma SentAfter(s: State, base: nat, entries: Log, commit: nat, completed: Log)
    requires SentBy(s, base, entries, commit) && CommittedOps(s.mem, s.sm) <= completed
    ensures MemoryOk(s.mem, s.flushed, s.sm) && commit == s.mem.commit
    ensures var whole := Whole(s.mem, s.sm);
            base <= |whole| && entries == whole[base..] && commit <= |whole| && whole[..commit] <= completed
  {
    hide MemoryOk, CommittedOps;
    WholeCommitted(s.mem, s.flushed, s.sm);
    WholeAfter(s.mem, s.flushed, s.sm, base);
  }

  lemma Bounds(mem: Image, flushed: nat, sm: Log)
    requires MemoryOk(mem, flushed, sm)
    ensures mem.logStart <= flushed <= |sm| <= mem.commit <= mem.End()
  {
  }

  /** Goes on from the message that named a checkpoint, once that is fetched. */
  method Resume(n: Node, checkpoint: Log, entries: Log, commit: nat, ghost s: State, ghost completed: Log)
    requires n.Valid() && SentBy(s, |checkpoint|, entries, commit) && checkpoint <= s.sm && |checkpoint| > n.commit
    requires CommittedOps(n.Memory(), n.sm) <= completed && CommittedOps(s.mem, s.sm) <= completed
    modifies n
    ensures n.Valid() && n.commit == commit && n.sm == checkpoint && n.logStart == |checkpoint|
    ensures Whole(n.Memory(), n.sm) == Whole(s.mem, s.sm) && CommittedOps(n.Memory(), n.sm) == CommittedOps(s.mem, s.sm)
  {
    hide Ok, MemoryOk, CommittedOps, Whole, SentBy;
    SentWhole(s, checkpoint, entries, commit);
    StartFrom(n, checkpoint, entries, completed);
    Commit(n, commit);
    MemoryPart(n.Abs());
    SameWhole(n.Memory(), n.flushed, n.sm, s, commit);
  }

  /** The checkpoint and the entries after it are the log. */
  method StartFrom(n: Node, checkpoint: Log, entries: Log, ghost completed: Log)
    requires n.Valid() && |checkpoint| > n.commit && CommittedOps(n.Memory(), n.sm) <= completed && checkpoint <= completed
    modifies n
    ensures n.Valid() && n.commit == n.logStart == |checkpoint| && n.sm == checkpoint && n.DurableOp() <= |checkpoint|
    ensures Whole(n.Memory(), n.sm) == checkpoint + entries && n.Memory().End() == |checkpoint| + |entries|
  {
    hide Ok, MemoryOk, CommittedOps, Whole, DurableUpTo;
    MemoryPart(n.Abs());
    n.RestoreCheckpoint(checkpoint, completed);
    n.MergeLog(|checkpoint|, entries);
    ResumedWhole(n.Memory(), checkpoint, entries);
  }

  lemma ResumedWhole(mem: Image, sm: Log, entries: Log)
    requires mem.logStart == |sm| && mem.log == [] + Drop(entries, 0)
    ensures Whole(mem, sm) == sm + entries && mem.End() == |sm| + |entries|
  {
    assert sm[..|sm|] == sm;
  }

  /** The log after what is committed is replaced. */
  method Replace(n: Node, base: nat, entries: Log, ghost whole: Log, commit: nat, ghost completed: Log)
    requires n.Valid() && base <= n.commit && base <= |whole| && entries == whole[base..]
    requires CommittedOps(n.Memory(), n.sm) <= completed && commit <= |whole| && whole[..commit] <= completed
    modifies n
    ensures n.Valid() && n.commit == old(n.commit) && commit <= n.Memory().End()
    ensures CommittedOps(n.Memory(), n.sm) == old(CommittedOps(n.Memory(), n.sm))
    ensures n.commit <= commit ==> Whole(n.Memory(), n.sm) == whole
  {
    hide Ok, MemoryOk, CommittedOps, Whole;
    MemoryPart(n.Abs());
    ghost var mem, sm, flushed := n.Memory(), n.sm, n.flushed;
    Bounds(mem, flushed, sm);
    n.MergeLog(base, entries);
    MemoryPart(n.Abs());
    Bounds(n.Memory(), n.flushed, n.sm);
    if mem.commit <= commit {
      MergedWhole(mem, flushed, sm, whole, commit, base, completed);
      assert |Drop(entries, mem.commit - base)| == |whole| - mem.commit;
    }
  }

  /** More of the log is committed. */
  method Commit(n: Node, commit: nat)
    requires n.Valid() && commit <= n.Memory().End()
    modifies n
    ensures n.Valid() && n.commit == Max(old(n.commit), commit) && n.logStart == old(n.logStart) && old(n.sm) <= n.sm
    ensures Whole(n.Memory(), n.sm) == old(Whole(n.Memory(), n.sm))
    ensures commit <= old(n.commit) ==> CommittedOps(n.Memory(), n.sm) == old(CommittedOps(n.Memory(), n.sm))
    ensures old(n.DurableOp()) <= |old(n.sm)| ==> n.sm == old(n.sm)
  {
    hide Ok, MemoryOk, CommittedOps, Whole;
    MemoryPart(n.Abs());
    ghost var mem, sm, flushed := n.Memory(), n.sm, n.flushed;
    n.CommitUpTo(commit);
    MemoryPart(n.Abs());
    WholeStays(mem, n.Memory(), flushed, sm, n.sm);
  }

  lemma SameWhole(mem: Image, flushed: nat, sm: Log, s: State, commit: nat)
    requires MemoryOk(mem, flushed, sm) && MemoryOk(s.mem, s.flushed, s.sm) && mem.commit == commit == s.mem.commit
    requires Whole(mem, sm) == Whole(s.mem, s.sm)
    ensures CommittedOps(mem, sm) == CommittedOps(s.mem, s.sm)
  {
    hide MemoryOk, CommittedOps, Whole;
    WholeCommitted(mem, flushed, sm);
    WholeCommitted(s.mem, s.flushed, s.sm);
  }

  /** Installs a segment that starts no later than what is committed. */
  method InstallFromCommit(n: Node, base: nat, entries: Log, commit: nat, ghost s: State, ghost completed: Log)
    requires n.Valid() && SentBy(s, base, entries, commit) && base <= n.commit
    requires CommittedOps(n.Memory(), n.sm) <= completed && CommittedOps(s.mem, s.sm) <= completed
    modifies n
    ensures n.Valid() && n.commit == Max(old(n.commit), commit)
    ensures old(n.commit) <= commit ==>
              Whole(n.Memory(), n.sm) == Whole(s.mem, s.sm) && CommittedOps(n.Memory(), n.sm) == CommittedOps(s.mem, s.sm)
    ensures old(n.commit) >= commit ==> CommittedOps(n.Memory(), n.sm) == old(CommittedOps(n.Memory(), n.sm))
  {
    hide Ok, MemoryOk, CommittedOps, Whole, SentBy;
    MemoryPart(n.Abs());
    ghost var mem, sm, flushed := n.Memory(), n.sm, n.flushed;
    Bounds(mem, flushed, sm);
    SentAfter(s, base, entries, commit, completed);
    Bounds(s.mem, s.flushed, s.sm);
    Replace(n, base, entries, Whole(s.mem, s.sm), commit, completed);
    Commit(n, commit);
    MemoryPart(n.Abs());
    if mem.commit <= commit {
      SameWhole(n.Memory(), n.flushed, n.sm, s, commit);
    }
  }
}
