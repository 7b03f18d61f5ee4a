/**
 Workspaces whose log and checkpoint agree: which calls they accept, and what those calls leave
 when nothing cuts them off.
 */
module AcceptedCalls {
  import opened Basics
  import opened Objectives
  import opened EventLog
  import opened CampaignState
  import opened CampaignSpec
  import opened CampaignInvariant
  import opened CampaignRuns
  import opened Disk
  import opened CrashSafety
  import opened Termination

  /** All writes of a list of checkpoints: the log and the checkpoint of the last one. */
  lemma {:induction false} AllApplied(cfg: Config, w: Workspace, saves: seq<State>)
    requires Commits(cfg, w.log, saves) && saves != []
    ensures var last := saves[|saves| - 1]; ApplyAll(w, Writes(|w.log|, saves)) == Workspace(last.events, Some(last))
    decreases saves
  {
    hide Checkpointed;
    var s := saves[0];
    var batch := Appends(s.events[|w.log|..]) + [SaveCheckpoint(s)];
    assert Writes(|w.log|, saves) == batch + Writes(|s.events|, saves[1..]);
    ApplySplit(w, batch, Writes(|s.events|, saves[1..]));
    BatchApplies(w, s);
    if |saves| > 1 {
      AllApplied(cfg, Workspace(s.events, Some(s)), saves[1..]);
    } else {
      assert saves[1..] == [];
    }
  }

  /** Nothing happened yet, or the checkpoint and the log agree. */
  ghost predicate Settled(cfg: Config, w: Workspace) {
    && InStep(cfg, w) && Timed(w)
  }

  /** The state a run starts from. */
  ghost function Loaded(cfg: Config, w: Workspace): State {
    if w.checkpoint.Some? then w.checkpoint.value else InitialState(cfg)
  }

  ghost function RunCall(w: Workspace, env: Env): Call {
    if w.checkpoint.Some? then ResumeRun(env) else FreshRun(env)
  }

  lemma LoadedKeeps(cfg: Config, w: Workspace)
    requires ValidConfig(cfg) && Settled(cfg, w)
    ensures var s := Loaded(cfg, w); Inv(cfg, s) && s.elapsed >= 0.0 && s.events == w.log
  {
    hide Inv, LogSafe;
    InitialKeeps(cfg);
  }

  /** From a settled workspace a run is accepted in the executable statuses, and settles again. */
  lemma {:induction false} SettledRun(cfg: Config, w: Workspace, env: Env)
    requires ValidConfig(cfg) && ValidEnv(env) && ClockForward(env) && Settled(cfg, w)
    requires Executable(Loaded(cfg, w).status)
    ensures Perform(cfg, w, RunCall(w, env)).Ok?
    ensures var t := RunResult(cfg, env, Loaded(cfg, w));
      && ApplyAll(w, Perform(cfg, w, RunCall(w, env)).value) == Workspace(t.events, Some(t))
      && Settled(cfg, Workspace(t.events, Some(t)))
  {
    hide Inv, LogSafe, ValidConfig, ValidEnv, ClockForward, Run, Writes, StateMatchesLog, Chained;
    LoadedKeeps(cfg, w);
    var s := Loaded(cfg, w);
    RunKeeps(cfg, env, s);
    RunTimed(cfg, env, s);
    AllApplied(cfg, w, Run(cfg, env, s));
    CheckpointedLog(cfg, RunResult(cfg, env, s));
    KnownObjectives(cfg, s);
    LogAccepted(cfg, s);
  }

  lemma LogAccepted(cfg: Config, s: State)
    requires Inv(cfg, s)
    ensures s.events != [] ==> LogMatches(cfg, s, s.events)
  {
    hide Shape, Metered, LogSafe, PendingUntouched, StateMatchesLog;
    if s.events != [] {
      StateMatchesOwnLog(cfg.hash, s.events);
    }
  }

  lemma {:induction false} SettledReview(cfg: Config, w: Workspace, r: Review)
    requires ValidConfig(cfg) && Settled(cfg, w) && Perform(cfg, w, Decide(r)).Ok?
    ensures var t := ApplyReview(cfg, w.checkpoint.value, r);
      && ApplyAll(w, Perform(cfg, w, Decide(r)).value) == Workspace(t.events, Some(t))
      && Settled(cfg, Workspace(t.events, Some(t)))
      && t.status in {ReadyToResume, StoppedByCondition, StoppedByOperator}
      && t.nextIteration == w.checkpoint.value.nextIteration
  {
    hide Inv, LogSafe, ValidConfig, Writes, LogMatches;
    var s := w.checkpoint.value;
    ReviewKeeps(cfg, s, r);
    CommitsOne(cfg, s.events, ApplyReview(cfg, s, r));
    AllApplied(cfg, w, [ApplyReview(cfg, s, r)]);
    CheckpointedLog(cfg, ApplyReview(cfg, s, r));
  }

  lemma LoadedSound(cfg: Config, w: Workspace)
    requires ValidConfig(cfg) && Sound(cfg, w) && Timed(w)
    ensures var s := Loaded(cfg, w); Inv(cfg, s) && s.elapsed >= 0.0 && (w.checkpoint.Some? ==> s.events != [])
  {
    hide Inv, LogSafe;
    InitialKeeps(cfg);
  }

  lemma SettledSound(cfg: Config, w: Workspace)
    requires Settled(cfg, w)
    ensures Sound(cfg, w)
  {
    hide LogSafe, Inv;
    if w.checkpoint.Some? {
      assert w.log[|w.log|..] == [];
    }
  }

  /** A review is only accepted on a settled, paused checkpoint, which has used an iteration. */
  lemma ReviewedWasSettled(cfg: Config, w: Workspace, r: Review)
    requires ValidConfig(cfg) && Sound(cfg, w) && Timed(w) && Perform(cfg, w, Decide(r)).Ok?
    ensures Settled(cfg, w) && w.checkpoint.value.status == Paused
    ensures w.checkpoint.value.nextIteration >= 2 && cfg.limits.maxIterations > 0
  {
    hide LogSafe, Writes, ApplyReview, StateMatchesLog, Shape, Recorded;
    VerifiedMeansInStep(cfg, w);
  }

  lemma EmptySettled(cfg: Config)
    ensures Settled(cfg, Workspace([], None))
  {
  }

  /** An accepted run starts from a settled workspace. */
  lemma RunWasSettled(cfg: Config, w: Workspace, env: Env)
    requires ValidConfig(cfg) && Sound(cfg, w) && Timed(w) && Perform(cfg, w, RunCall(w, env)).Ok?
    ensures Settled(cfg, w) && Executable(Loaded(cfg, w).status)
  {
    hide LogSafe, Writes, Run, StateMatchesLog, Inv;
    EmptySettled(cfg);
    if w.checkpoint.Some? {
      VerifiedMeansInStep(cfg, w);
    }
  }

  // ----- Campaigns as histories of accepted calls -----

  ghost predicate UncutAt(cfg: Config, actions: seq<Action>, i: nat)
    requires i < |actions|
  {
    var p := Perform(cfg, History(cfg, actions[..i]), actions[i].call);
    p.Ok? && |p.value| <= actions[i].upTo
  }

  /** Every call of the history was accepted and not cut off. */
  ghost predicate Uncut(cfg: Config, actions: seq<Action>) {
    forall i :: 0 <= i < |actions| ==> UncutAt(cfg, actions, i)
  }

  function Decisions(actions: seq<Action>): nat {
    if actions == [] then 0
    else Decisions(actions[..|actions| - 1]) + if actions[|actions| - 1].call.Decide? then 1 else 0
  }

  /** One more accepted call, carried out to its end. */
  lemma OneMore(cfg: Config, actions: seq<Action>, c: Call) returns (longer: seq<Action>)
    requires Uncut(cfg, actions) && ValidHistory(actions) && ValidCall(c) && Perform(cfg, History(cfg, actions), c).Ok?
    ensures Uncut(cfg, longer) && ValidHistory(longer)
    ensures History(cfg, longer) == ApplyAll(History(cfg, actions), Perform(cfg, History(cfg, actions), c).value)
    ensures Decisions(longer) == Decisions(actions) + if c.Decide? then 1 else 0
  {
    hide Perform, ValidCall, ApplyAll;
    longer := actions + [Action(c, |Perform(cfg, History(cfg, actions), c).value|)];
    assert longer[..|actions|] == actions;
    forall i | 0 <= i < |longer| ensures UncutAt(cfg, longer, i) {
      if i < |actions| {
        assert UncutAt(cfg, actions, i);
        assert longer[..i] == actions[..i];
      }
    }
  }

  /** The approval of what is paused is accepted. */
  lemma ApprovalAccepted(cfg: Config, w: Workspace, stamp: string)
    requires ValidConfig(cfg) && Settled(cfg, w) && w.checkpoint.Some? && w.checkpoint.value.status == Paused
    ensures w.checkpoint.value.current.Some?
    ensures Perform(cfg, w, Decide(Approval(cfg, w.checkpoint.value, stamp))).Ok?
  {
    hide LogSafe, Metered, Recorded, Dispositions, ReviewedShape, Writes, ApplyReview, LogMatches;
    LogAccepted(cfg, w.checkpoint.value);
  }

  ghost predicate RunEnvs(envs: nat -> Env) {
    RoundEnvs(envs) && forall k: nat :: ClockForward(envs(k))
  }

  /** Running and approving in turn, as a history of accepted calls. */
  lemma {:induction false} RoundsAsHistory(
    cfg: Config, envs: nat -> Env, stamps: nat -> string, actions: seq<Action>, k: nat) returns (whole: seq<Action>)
    requires ValidConfig(cfg) && RunEnvs(envs) && Uncut(cfg, actions) && ValidHistory(actions)
    requires Settled(cfg, History(cfg, actions))
    requires var s := Loaded(cfg, History(cfg, actions)); Inv(cfg, s) && Executable(s.status)
    ensures Uncut(cfg, whole) && ValidHistory(whole)
    ensures var (final, approvals) := RunAndApprove(cfg, envs, stamps, Loaded(cfg, History(cfg, actions)), k);
      History(cfg, whole) == Workspace(final.events, Some(final)) && Decisions(whole) == Decisions(actions) + approvals
    decreases Measure(Loaded(cfg, History(cfg, actions)))
  {
    hide ValidConfig, Inv, Settled, Uncut, ValidHistory, History, Perform, ApplyAll, RunResult, ApplyReview, Measure;
    var w := History(cfg, actions);
    var s := Loaded(cfg, w);
    assert ValidEnv(envs(k)) && ClockForward(envs(k)) && envs(k).maxSteps.None?;
    SettledRun(cfg, w, envs(k));
    var ran := OneMore(cfg, actions, RunCall(w, envs(k)));
    RunKeeps(cfg, envs(k), s);
    RunMeasure(cfg, envs(k), s);
    var t := RunResult(cfg, envs(k), s);
    if t.status != Paused {
      whole := ran;
    } else {
      ApprovalAccepted(cfg, History(cfg, ran), stamps(k));
      var review := Approval(cfg, t, stamps(k));
      ReviewKeeps(cfg, t, review);
      ApprovalMeasure(cfg, t, review);
      SettledReview(cfg, History(cfg, ran), review);
      var approved := OneMore(cfg, ran, Decide(review));
      whole := RoundsAsHistory(cfg, envs, stamps, approved, k + 1);
    }
  }

  /**
   A fresh campaign of n objectives, run and approved in turn through the entry points: every call
   is accepted, and after at most 2n approvals the checkpoint on disk is terminal.
   */
  lemma CampaignRunsToEnd(cfg: Config, envs: nat -> Env, stamps: nat -> string) returns (actions: seq<Action>)
    requires ValidConfig(cfg) && RunEnvs(envs)
    ensures Uncut(cfg, actions) && ValidHistory(actions) && Decisions(actions) <= 2 * |cfg.objectives|
    ensures History(cfg, actions).checkpoint.Some?
    ensures var final := History(cfg, actions).checkpoint.value;
      Terminal(final.status) && (final.status == Completed ==> final.completed == Ids(cfg.order))
  {
    hide ValidConfig, Inv, RunAndApprove, Settled;
    EmptySettled(cfg);
    InitialKeeps(cfg);
    actions := RoundsAsHistory(cfg, envs, stamps, [], 0);
    CampaignTerminates(cfg, envs, stamps);
  }
}
