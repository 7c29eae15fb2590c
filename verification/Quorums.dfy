/** Replica ids, quorums, and the watermark a quorum reaches. */
module Quorums {
  /** A cluster of `n` replicas with ids 0 to n - 1.  With `gated` their owners hold back what the
      primary of a view sends until its disk records that view; with `crashes` replicas crash and
      restart; with `guarded` a checkpoint is restored only once the disk records the view it came
      with; see `Cluster`. */
  datatype Config = Config(n: nat, gated: bool, crashes: bool, guarded: bool) {
    predicate Valid() { n >= 3 }

    /** The clusters in which replicas agree: nothing of a view is sent that its primary could
        forget, and no checkpoint outlives a crash that the record of its view does not.  Where a
        quorum is all replicas but one, a checkpoint that does harms nobody. */
    predicate Sound() { Valid() && (!crashes || (gated && (guarded || n <= 4))) }

    /** Whether a replica can come back behind the view of what it has committed. */
    predicate Strays() { crashes && !guarded }

    function Primary(view: nat): nat { if n == 0 then 0 else view % n }

    function Quorum(): nat { n / 2 + 1 }

    /** Whether `a` is a set of replica ids that makes a quorum. */
    ghost predicate IsQuorum(a: set<nat>) {
      (forall i :: i in a ==> i < n) && |a| >= Quorum()
    }
  }

  lemma {:induction false} RangeCount(a: set<nat>, n: nat)
    requires forall i :: i in a ==> i < n
    ensures |a| <= n
  {
    if n == 0 {
      assert a == {};
    } else {
      RangeCount(a - {n - 1}, n - 1);
    }
  }

  /** Any two quorums share a replica. */
  lemma QuorumsMeet(cfg: Config, a: set<nat>, b: set<nat>) returns (i: nat)
    requires cfg.IsQuorum(a) && cfg.IsQuorum(b)
    ensures i in a && i in b
  {
    RangeCount(a + b, cfg.n);
    assert a * b != {} by {
      assert |a + b| == |a| + |b| - |a * b|;
    }
    i :| i in a * b;
  }

  lemma {:induction false} SubsetCount(a: set<nat>, b: set<nat>)
    requires a <= b
    ensures |a| <= |b|
  {
    if a != {} {
      var x :| x in a;
      SubsetCount(a - {x}, b - {x});
    }
  }

  /** The replicas whose watermark reaches `mark`. */
  function Reaching(marks: seq<nat>, mark: nat): set<nat> {
    set i: nat | i < |marks| && marks[i] >= mark
  }

  /** The highest of the first `k` watermarks that a quorum of all of them reaches, 0 if none. */
  function QuorumMark(cfg: Config, marks: seq<nat>, k: nat): (c: nat)
    requires k <= |marks|
    ensures c == 0 || (c in marks[..k] && |Reaching(marks, c)| >= cfg.Quorum())
    ensures forall i :: 0 <= i < k && |Reaching(marks, marks[i])| >= cfg.Quorum() ==> marks[i] <= c
  {
    if k == 0 then 0
    else
      var rest := QuorumMark(cfg, marks, k - 1);
      assert marks[..k] == marks[..k - 1] + [marks[k - 1]];
      if marks[k - 1] > rest && |Reaching(marks, marks[k - 1])| >= cfg.Quorum() then marks[k - 1] else rest
  }

  /** A watermark above the one committed is reached by fewer than a quorum. */
  lemma QuorumMarkIsHighest(cfg: Config, marks: seq<nat>, mark: nat)
    requires mark > QuorumMark(cfg, marks, |marks|)
    ensures |Reaching(marks, mark)| < cfg.Quorum()
  {
    if Reaching(marks, mark) != {} {
      var j :| j in Reaching(marks, mark);
      var i := LeastReaching(marks, mark, j, |marks|);
      SameReaching(marks, mark, i);
    }
  }

  lemma SameReaching(marks: seq<nat>, mark: nat, i: nat)
    requires i < |marks| && marks[i] >= mark
    requires forall j :: 0 <= j < |marks| && marks[j] >= mark ==> marks[i] <= marks[j]
    ensures Reaching(marks, marks[i]) == Reaching(marks, mark)
  {
  }

  /** The replica with the lowest watermark among the first `k` that reach `mark`. */
  lemma {:induction false} LeastReaching(marks: seq<nat>, mark: nat, j: nat, k: nat) returns (i: nat)
    requires j < k <= |marks| && marks[j] >= mark
    ensures i < k && marks[i] >= mark
    ensures forall x :: 0 <= x < k && marks[x] >= mark ==> marks[i] <= marks[x]
    decreases k
  {
    if k == 1 {
      i := 0;
    } else if x: nat :| x < k - 1 && marks[x] >= mark {
      i := LeastReaching(marks, mark, x, k - 1);
      if marks[k - 1] >= mark && marks[k - 1] < marks[i] {
        i := k - 1;
      }
    } else {
      i := k - 1;
    }
  }
}
