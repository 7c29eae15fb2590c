/** Which clusters agree: exactly those whose owners keep to the gate and to the guard, that never
    crash, or that are too small for an unguarded checkpoint to do harm. */
module Deciding {
  import opened Types
  import opened Quorums
  import opened Protocol
  import opened Cluster
  import opened Runs
  import Agreement
  import Running
  import Ungated
  import EarlyRestore

  /** Replicas that have both committed an op hold the same entry at it. */
  ghost predicate LogsAgree(s: System) {
    forall i: nat, j: nat, k: nat {:trigger s.reps[i].log[k], s.reps[j].log[k]} ::
      (i < |s.reps| && j < |s.reps| && k < s.reps[i].commit && k < s.reps[j].commit
       && k < |s.reps[i].log| && k < |s.reps[j].log|) ==> s.reps[i].log[k] == s.reps[j].log[k]
  }

  function Last(cfg: Config, run: seq<System>): System { if |run| > 0 then run[|run| - 1] else Initial(cfg) }

  /** Whatever its size, a cluster agrees in every run exactly when it never crashes, or when nothing of
      a view leaves that its primary could forget and no checkpoint is restored that a crash would take
      behind the view it came with; up to four replicas agree without the latter. */
  lemma Decides(cfg: Config)
    requires cfg.Valid()
    ensures cfg.Sound() <==> forall run {:trigger IsRun(cfg, run)} :: IsRun(cfg, run) ==> LogsAgree(Last(cfg, run))
  {
    hide IsRun;
    if cfg.Sound() {
      forall run | IsRun(cfg, run)
        ensures LogsAgree(Last(cfg, run))
      {
        AllAgree(cfg, run);
      }
    } else if !cfg.gated {
      var s := Ungated.GateIsNeeded(cfg);
      var run := RunTo(cfg, s);
      assert s.reps[0].log[0] != s.reps[1].log[0];
    } else {
      var s := EarlyRestore.RestoreBreaksAgreement(cfg);
      var run := RunTo(cfg, s);
      assert s.reps[2].log[0] != s.reps[3].log[0];
    }
  }

  lemma RunTo(cfg: Config, s: System) returns (run: seq<System>)
    requires Live(cfg, s)
    ensures IsRun(cfg, run) && Last(cfg, run) == s
  {
    run :| Ends(cfg, run, s);
  }

  lemma AllAgree(cfg: Config, run: seq<System>)
    requires cfg.Sound() && IsRun(cfg, run)
    ensures LogsAgree(Last(cfg, run))
  {
    SizeOf(cfg, run);
    var last := |run| - 1;
    var s := run[last];
    forall i: nat, j: nat, k: nat | i < |s.reps| && j < |s.reps| && k < s.reps[i].commit && k < s.reps[j].commit
      && k < |s.reps[i].log| && k < |s.reps[j].log|
      ensures s.reps[i].log[k] == s.reps[j].log[k]
    {
      Agreement.Agreement(cfg, run, last, i, last, j, k);
    }
  }

  lemma SizeOf(cfg: Config, run: seq<System>)
    requires cfg.Sound() && IsRun(cfg, run)
    ensures |run| > 0 && |run[|run| - 1].reps| == cfg.n
  {
    Running.RunOk(cfg, run, |run| - 1, |run| - 1);
  }
}
