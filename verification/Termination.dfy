/** Alternating run and review reaches a terminal status, and a chain of single steps is short. */
module Termination {
  import opened Basics
  import opened Objectives
  import opened EventLog
  import opened CampaignState
  import opened CampaignSpec
  import opened CampaignInvariant
  import opened CampaignSteps
  import opened CampaignRuns
  import opened StepRefinement

  /** Twice the pending objectives, less one if the head has had its review. */
  function Measure(s: State): nat {
    2 * |s.pending| - if s.pending != [] && s.pending[0] in s.reviewed then 1 else 0
  }

  /** A new head has never been reviewed. */
  lemma HeadUnreviewed(cfg: Config, s: State, t: State)
    requires ValidConfig(cfg) && Shape(cfg, s) && Shape(cfg, t) && s.pending != [] && t.pending == s.pending[1..]
    requires t.reviewed == s.reviewed
    ensures Measure(t) < Measure(s)
  {
    hide ValidConfig;
  }

  lemma VisitMeasure(cfg: Config, env: Env, s: State, o: Objective, base: real)
    requires ValidConfig(cfg) && ValidEnv(env) && AtHead(cfg, s, o)
    ensures var v := Visit(cfg, env, s, o, base);
      && v.s.reviewed == s.reviewed
      && (v.s.pending == s.pending || v.s.pending == s.pending[1..])
      && (v.s.status == Paused ==> v.s.pending == s.pending)
  {
    hide ValidConfig, Recorded, Metered, Appended, ValidEnv, Denial, AttemptAt;
    HeadFacts(cfg, s);
    AppendedDispositions(cfg, env);
  }

  lemma AppendedDispositions(cfg: Config, env: Env)
    ensures forall s, d :: var t := Appended(cfg, env, s, d);
      t.pending == s.pending && t.reviewed == s.reviewed && t.status == s.status
  {
  }

  /** Every completion in the loop shrinks the measure; nothing grows it. */
  lemma {:induction false} LoopMeasure(cfg: Config, env: Env, s: State, k: nat, steps: nat, base: real)
    requires ValidConfig(cfg) && ValidEnv(env) && Checkpointed(cfg, s) && s.status == Running && k <= |s.completed|
    ensures var p := Loop(cfg, env, s, k, steps, base);
      Measure(p.s) <= Measure(s) && (p.s.pending != s.pending ==> Measure(p.s) < Measure(s))
    decreases |cfg.order| - k
  {
    hide Visit, ValidConfig, ValidEnv, Metered, Recorded, Dispositions, ReviewedShape, Measure;
    if k < |cfg.order| {
      RunningFacts(cfg, s);
      PendingPosition(cfg, s, k);
      if cfg.order[k].id !in s.pending {
        LoopMeasure(cfg, env, s, k + 1, steps, base);
      } else if !OutOfSteps(env, steps) {
        HeadFacts(cfg, s);
        var o := cfg.order[k];
        VisitKeeps(cfg, env, s, o, base);
        VisitMeasure(cfg, env, s, o, base);
        var v := Visit(cfg, env, s, o, base);
        if v.s.pending != s.pending {
          HeadUnreviewed(cfg, s, v.s);
        } else {
          SameMeasure(s, v.s);
        }
        if v.s.status == Running {
          LoopMeasure(cfg, env, v.s, k + 1, steps + 1, base);
        }
      }
    }
  }

  lemma SameMeasure(s: State, t: State)
    requires t.pending == s.pending && t.reviewed == s.reviewed
    ensures Measure(t) == Measure(s)
  {
  }

  lemma RunMeasure(cfg: Config, env: Env, s: State)
    requires ValidConfig(cfg) && ValidEnv(env) && Inv(cfg, s) && Executable(s.status)
    ensures Measure(RunResult(cfg, env, s)) <= Measure(s)
    ensures RunResult(cfg, env, s).pending != s.pending ==> Measure(RunResult(cfg, env, s)) < Measure(s)
  {
    hide ValidConfig, Inv, Loop, ValidEnv, Measure, Appended;
    AppendedDispositions(cfg, env);
    BegunKeeps(cfg, env, s);
    var b := Begun(cfg, env, s);
    SameMeasure(s, b);
    LoopMeasure(cfg, env, b, 0, 0, b.elapsed);
    var p := Loop(cfg, env, b, 0, 0, b.elapsed);
    SameMeasure(p.s, Finished(cfg, env, p.s, b.elapsed));
  }

  /** Every approval shrinks the measure. */
  lemma ApprovalMeasure(cfg: Config, s: State, r: Review)
    requires ValidConfig(cfg) && Checkpointed(cfg, s) && s.status == Paused && s.current == Some(r.objective)
    requires r.choice == Approved
    ensures Measure(ApplyReview(cfg, s, r)) < Measure(s)
    ensures ApplyReview(cfg, s, r).status == ReadyToResume
  {
    hide ValidConfig, Recorded, Metered;
    HeadFacts(cfg, s);
    ReviewShape(cfg, s, r);
    var t := ApplyReview(cfg, s, r);
    if t.pending != s.pending {
      HeadUnreviewed(cfg, s, t);
    }
  }

  /** The approval an operator hands in for what is paused. */
  function Approval(cfg: Config, s: State, stamp: string): Review
    requires s.current.Some?
  {
    Review("", cfg.identity.campaign, s.current.value, cfg.identity.operator, Approved,
           cfg.identity.fileDigest(s), 0, 0, stamp)
  }

  ghost predicate RoundEnvs(envs: nat -> Env) {
    forall k: nat :: ValidEnv(envs(k)) && envs(k).maxSteps.None?
  }

  /** Run; if paused, approve and run again: the final state and the number of approvals. */
  ghost function RunAndApprove(cfg: Config, envs: nat -> Env, stamps: nat -> string, s: State,
                               k: nat): (r: (State, nat))
    requires ValidConfig(cfg) && RoundEnvs(envs) && Inv(cfg, s) && Executable(s.status)
    ensures Terminal(r.0.status) && Checkpointed(cfg, r.0)
    ensures r.1 <= Measure(s) <= 2 * |s.pending|
    decreases Measure(s)
  {
    assert ValidEnv(envs(k)) && envs(k).maxSteps.None?;
    RunKeeps(cfg, envs(k), s);
    RunMeasure(cfg, envs(k), s);
    var t := RunResult(cfg, envs(k), s);
    if t.status != Paused then (t, 0)
    else
      var review := Approval(cfg, t, stamps(k));
      ReviewKeeps(cfg, t, review);
      ApprovalMeasure(cfg, t, review);
      var (final, more) := RunAndApprove(cfg, envs, stamps, ApplyReview(cfg, t, review), k + 1);
      (final, more + 1)
  }

  ghost function StartAndApprove(cfg: Config, envs: nat -> Env, stamps: nat -> string): (State, nat)
    requires ValidConfig(cfg) && RoundEnvs(envs)
  {
    InitialKeeps(cfg);
    RunAndApprove(cfg, envs, stamps, InitialState(cfg), 0)
  }

  /** A fresh campaign of n objectives ends after at most 2n approvals, whatever the gate says when. */
  lemma CampaignTerminates(cfg: Config, envs: nat -> Env, stamps: nat -> string)
    requires ValidConfig(cfg) && RoundEnvs(envs)
    ensures var (final, approvals) := StartAndApprove(cfg, envs, stamps);
      && Terminal(final.status) && approvals <= 2 * |cfg.objectives|
      && (final.status == Completed ==> final.completed == Ids(cfg.order))
  {
    hide Inv, RunAndApprove, ValidConfig;
    InitialKeeps(cfg);
    ScheduleLength(cfg);
    CompletedMeansAll(cfg, StartAndApprove(cfg, envs, stamps).0);
  }

  lemma CompletedMeansAll(cfg: Config, s: State)
    requires Inv(cfg, s)
    ensures s.status == Completed ==> s.completed == Ids(cfg.order)
  {
    hide Metered, Recorded, ReviewedShape;
  }

  lemma ScheduleLength(cfg: Config)
    requires ValidConfig(cfg)
    ensures |cfg.order| <= |cfg.objectives|
  {
    hide ById;
    OrderDistinct(cfg);
    DistinctSize(Ids(cfg.order));
    DistinctSize(Ids(cfg.objectives));
    assert Elements(Ids(cfg.order)) <= Elements(Ids(cfg.objectives)) by {
      forall x | x in Elements(Ids(cfg.order)) ensures x in Ids(cfg.objectives) {
        assert x in ById(cfg.objectives);
        var i :| 0 <= i < |cfg.objectives| && cfg.objectives[i] == ById(cfg.objectives)[x];
        assert Ids(cfg.objectives)[i] == x;
      }
    }
    SubsetSize(Elements(Ids(cfg.order)), Elements(Ids(cfg.objectives)));
  }

  // ----- Single steps -----

  /** Iterations left before the budget runs out. */
  function Left(cfg: Config, s: State): nat {
    if s.nextIteration - 1 < cfg.limits.maxIterations then cfg.limits.maxIterations - (s.nextIteration - 1) else 0
  }

  lemma StepUsesIteration(cfg: Config, env: Env, s: State)
    requires ValidConfig(cfg) && ValidEnv(env) && Inv(cfg, s) && Executable(s.status) && env.maxSteps == Some(1)
    ensures RunResult(cfg, env, s).status == Running ==> Left(cfg, RunResult(cfg, env, s)) < Left(cfg, s)
  {
    hide ValidConfig, Inv, ValidEnv, Loop, RunResult, Visit;
    OneStep(cfg, env, s);
    var b := Begun(cfg, env, s);
    if s.pending != [] {
      RunningVisit(cfg, env, b, HeadObjective(cfg, b), b.elapsed);
    }
  }

  lemma RunningVisit(cfg: Config, env: Env, s: State, o: Objective, base: real)
    requires s.status == Running
    ensures Visit(cfg, env, s, o, base).s.status == Running ==>
      && Visit(cfg, env, s, o, base).s.nextIteration == s.nextIteration + 1
      && s.nextIteration - 1 < cfg.limits.maxIterations
  {
  }

  /** A chain of single steps is at most one longer than the iterations left. */
  lemma {:induction false} StepwiseIsShort(cfg: Config, envs: nat -> Env, s: State, k: nat)
    requires ValidConfig(cfg) && StepEnvs(envs) && Inv(cfg, s) && Executable(s.status)
    ensures k <= Stepwise(cfg, envs, s, k).1 && Stepwise(cfg, envs, s, k).1 - k + 1 <= Left(cfg, s) + 1
    decreases |s.pending|
  {
    hide ValidConfig, Inv, ValidEnv, RunResult, Left;
    assert ValidEnv(envs(k)) && envs(k).maxSteps == Some(1);
    OneStep(cfg, envs(k), s);
    StepUsesIteration(cfg, envs(k), s);
    var t := RunResult(cfg, envs(k), s);
    if t.status == Running {
      StepwiseIsShort(cfg, envs, t, k + 1);
    }
  }
}
