/** The values every part of the model shares: log entries and small helpers. */
module Types {
  /** An operation of the replicated state machine, which the protocol never looks into. */
  type Op(==, !new)

  datatype Option<+T> = None | Some(value: T)

  /** A log entry: a client's registration, or a request of one of its sessions. */
  datatype LogEntry =
    | Register(client: nat)
    | Request(client: nat, session: nat, number: nat, answered: nat, op: Op)

  type Log = seq<LogEntry>

  function Min(a: int, b: int): int { if a <= b then a else b }

  function Max(a: int, b: int): int { if a >= b then a else b }

  /** The entries of `s` from index `from` on, none if there are fewer. */
  function Drop<T>(s: seq<T>, from: nat): seq<T> {
    if from <= |s| then s[from..] else []
  }

  /** From index `from` up to `to` both sequences have entries, the same ones. */
  ghost predicate Same<T>(a: seq<T>, b: seq<T>, from: nat, to: int) {
    from < to ==> to <= |a| && to <= |b| && forall x {:trigger a[x]} {:trigger b[x]} :: from <= x < to ==> a[x] == b[x]
  }

  lemma SameStart<T>(a: seq<T>, b: seq<T>, n: nat)
    requires n <= |a| && n <= |b|
    ensures Same(a, b, 0, n) <==> a[..n] == b[..n]
  {
    if a[..n] == b[..n] {
      forall x | 0 <= x < n
        ensures a[x] == b[x]
      {
        assert a[..n][x] == b[..n][x];
      }
    }
  }

  /** Sequences that start alike are alike in between. */
  lemma SameSlice<T>(a: seq<T>, b: seq<T>, k: nat, x: nat, y: nat)
    requires x <= y <= k <= |a| && k <= |b| && a[..k] == b[..k]
    ensures a[x..y] == b[x..y] && a[..y] == b[..y]
  {
    assert a[x..y] == a[..k][x..y] && b[x..y] == b[..k][x..y];
    assert a[..y] == a[..k][..y] && b[..y] == b[..k][..y];
  }
}
