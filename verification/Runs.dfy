/** Runs put together step by step, from what replicas do and what has left: a state is shown to be one
    that a run ends in, and a step moves one replica and leaves the others as they are. */
module Runs {
  import opened Types
  import opened Quorums
  import opened Protocol
  import opened Cluster

  ghost predicate Ends(cfg: Config, run: seq<System>, s: System) { IsRun(cfg, run) && run[|run| - 1] == s }

  /** A run of the cluster ends in `s`. */
  ghost predicate Live(cfg: Config, s: System) {
    s.h.cfg == cfg && |s.reps| == cfg.n && exists run :: Ends(cfg, run, s)
  }

  /** Only the replicas `who` went on from `s` to `s'`, and nothing sent was lost. */
  ghost predicate Only(s: System, s': System, who: set<nat>) {
    && |s'.reps| == |s.reps|
    && s.h.msgs <= s'.h.msgs
    && forall j: nat {:trigger s'.reps[j]} {:trigger s.reps[j]} :: j < |s.reps| && j !in who ==> s'.reps[j] == s.reps[j]
  }

  lemma Beginning(cfg: Config)
    ensures Live(cfg, Initial(cfg)) && forall j {:trigger Initial(cfg).reps[j]} :: 0 <= j < cfg.n ==> Initial(cfg).reps[j] == New(cfg)
  {
    assert Ends(cfg, [Initial(cfg)], Initial(cfg));
  }

  lemma Extend(cfg: Config, run: seq<System>, s: System, e: Event)
    requires Ends(cfg, run, s) && Enabled(s, e)
    ensures Ends(cfg, run + [Step(s, e)], Step(s, e))
  {
    hide Enabled, Step, Initial;
    var run' := run + [Step(s, e)];
    forall k | 0 <= k < |run'| - 1
      ensures IsStep(run'[k], run'[k + 1])
    {
      if k < |run| - 1 {
        assert IsStep(run[k], run[k + 1]);
      } else {
        assert IsStep(s, Step(s, e));
      }
    }
  }

  lemma Go(cfg: Config, s: System, e: Event)
    requires Live(cfg, s) && Enabled(s, e)
    ensures Live(cfg, Step(s, e))
  {
    var run :| Ends(cfg, run, s);
    Extend(cfg, run, s, e);
    hide Ends, OnInput, Restored, Persisted, Restart, Acted;
    StepFrame(s, e);
  }

  lemma StepFrame(s: System, e: Event)
    requires Enabled(s, e)
    ensures Step(s, e).h.cfg == s.h.cfg && Only(s, Step(s, e), {e.i})
  {
    hide OnInput, Restored, Persisted, Restart, Establish, Forget, Complete, OwnAck, Raise, GrowViews, Starts, Confirmations, Reach;
  }

  /** An input that is no query. */
  lemma Do(cfg: Config, s: System, i: nat, input: Input) returns (s': System)
    requires Live(cfg, s) && i < cfg.n && !input.Query?
    requires input.Receive? ==> input.m in s.h.msgs && SentTo(cfg, i, input.m)
    ensures Live(cfg, s') && Only(s, s', {i}) && s'.reps[i] == OnInput(cfg, i, s.reps[i], input, s.h)
  {
    hide OnInput, Live;
    assert s.h.cfg == cfg && |s.reps| == cfg.n by { LiveParts(cfg, s); }
    Go(cfg, s, Act(i, input));
    StepFrame(s, Act(i, input));
    s' := Step(s, Act(i, input));
  }

  /** The replicas from `a` up to but not including `b`. */
  function Range(a: nat, b: nat): (r: set<nat>)
    ensures forall j :: j in r <==> a <= j < b
    ensures |r| == if a <= b then b - a else 0
  {
    if a < b then Range(a, b - 1) + {b - 1} else {}
  }

  lemma Joined(x: nat, a: set<nat>)
    requires x !in a
    ensures |{x} + a| == |a| + 1
  {
  }

  lemma LiveParts(cfg: Config, s: System)
    requires Live(cfg, s)
    ensures s.h.cfg == cfg && |s.reps| == cfg.n
  {
  }

  /** Some of what may leave early does so. */
  lemma Drains(cfg: Config, s: System, i: nat, sent: set<Message>) returns (s': System)
    requires Live(cfg, s) && i < cfg.n && sent <= s.reps[i].early && Gate(cfg, s.reps[i], sent) && !s.reps[i].q.unsent
    ensures Live(cfg, s') && Only(s, s', {i}) && s'.reps[i] == s.reps[i].(early := s.reps[i].early - sent)
    ensures sent <= s'.h.msgs
  {
    hide Gate, Live;
    assert s.h.cfg == cfg && |s.reps| == cfg.n by { LiveParts(cfg, s); }
    Go(cfg, s, Drain(i, sent));
    StepFrame(s, Drain(i, sent));
    s' := Step(s, Drain(i, sent));
  }

  /** A write is taken and lands. */
  lemma Lands(cfg: Config, s: System, i: nat) returns (s': System)
    requires Live(cfg, s) && i < cfg.n && s.reps[i].out.None?
    ensures Live(cfg, s') && Only(s, s', {i}) && s'.reps[i] == Persisted(cfg, i, TakeWrite(s.reps[i]), false)
    ensures s.reps[i].outbox <= s'.h.msgs
  {
    hide Persisted, Establish, Complete, OwnAck, Raise, Live;
    assert s.h.cfg == cfg && |s.reps| == cfg.n by { LiveParts(cfg, s); }
    Go(cfg, s, Take(i));
    var s1 := Step(s, Take(i));
    Go(cfg, s1, Land(i, false));
    StepFrame(s1, Land(i, false));
    s' := Step(s1, Land(i, false));
  }

  /** The replica once its write is taken and has landed, if that commits nothing. */
  function Written(r: Replica): Replica {
    r.(changed := None, durable := |r.log|, disk := Snapshot(r), outbox := {})
  }

  /** Nothing waits for a write, or to be executed or answered. */
  ghost predicate Calm(cfg: Config, r: Replica) {
    && r.out.None? && r.waiting == {} && r.q.queries == [] && !r.q.unsent && r.q.round == r.q.done
    && r.commit == |r.sm| && |r.acked| == cfg.n && |r.q.confirmed| == cfg.n
    && (r.changed.Some? ==> r.changed.value >= 1)
  }

  /** A write of a replica that leads nothing. */
  lemma Writes(cfg: Config, s: System, i: nat) returns (s': System)
    requires Live(cfg, s) && i < cfg.n && Calm(cfg, s.reps[i])
    requires s.reps[i].status == ViewChange || cfg.Primary(s.reps[i].view) != i
    ensures Live(cfg, s') && Only(s, s', {i}) && s'.reps[i] == Written(s.reps[i]) && Calm(cfg, s'.reps[i])
    ensures s.reps[i].outbox <= s'.h.msgs
  {
    s' := Lands(cfg, s, i);
    hide Live;
    WrittenOk(cfg, i, s.reps[i]);
  }

  lemma WrittenOk(cfg: Config, i: nat, r: Replica)
    requires Calm(cfg, r) && (r.status == ViewChange || cfg.Primary(r.view) != i)
    ensures Persisted(cfg, i, TakeWrite(r), false) == Written(r)
  {
  }

  lemma Crashes(cfg: Config, s: System, i: nat) returns (s': System)
    requires Live(cfg, s) && i < cfg.n && cfg.crashes
    ensures Live(cfg, s') && Only(s, s', {i}) && s'.reps[i] == Restart(cfg, i, s.reps[i].disk, s.reps[i].flushed)
  {
    hide Restart, Establish, Forget, Complete, Raise, Live;
    assert s.h.cfg == cfg && |s.reps| == cfg.n by { LiveParts(cfg, s); }
    Go(cfg, s, Crash(i, false));
    StepFrame(s, Crash(i, false));
    s' := Step(s, Crash(i, false));
  }

  lemma Restores(cfg: Config, s: System, i: nat, m: Message, k: nat) returns (s': System)
    requires Live(cfg, s) && i < cfg.n && m in s.h.msgs && SentTo(cfg, i, m) && Fetches(s.reps[i], m, k) && !cfg.guarded
    ensures Live(cfg, s') && Only(s, s', {i}) && s'.reps[i] == Restored(cfg, i, s.reps[i], m, k)
  {
    hide Restored, Fetches, Live;
    assert s.h.cfg == cfg && |s.reps| == cfg.n by { LiveParts(cfg, s); }
    Go(cfg, s, Restore(i, m, k));
    StepFrame(s, Restore(i, m, k));
    s' := Step(s, Restore(i, m, k));
  }
}
