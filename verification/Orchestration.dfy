/**
 The durable graph around the engine (src/aotp/langgraph_orchestration.py): one objective per
 node visit, routing on the status, a pause for human review.
 */
module Orchestration {
  import opened Basics
  import opened Objectives
  import opened EventLog
  import opened CampaignState
  import opened CampaignSpec
  import opened CampaignInvariant
  import opened CampaignRuns
  import opened Disk
  import opened CrashSafety
  import opened StepRefinement
  import opened HumanAnswers
  import opened Termination
  import opened AcceptedCalls
  import opened CampaignEngine

  datatype Route = Continue | ToReview | End

  function RouteAfterStep(s: Status): Route {
    if s == Running then Continue else if s == Paused then ToReview else End
  }

  function RouteAfterReview(s: Status): Route {
    if s == ReadyToResume then Continue else End
  }

  /** What a graph invocation may answer: waiting for a review, or over. */
  predicate Rests(s: Status) {
    || s == Paused
    || s in {Completed, StoppedByPolicy, StoppedByOperator, StoppedByBudget, StoppedByCondition, Failed}
  }

  ghost predicate NodeEnvs(envs: nat -> Env) {
    StepEnvs(envs) && forall k: nat :: ClockForward(envs(k))
  }

  /** The last state of a chain of single steps from this workspace, and the number of the last step. */
  ghost function StepwiseFrom(cfg: Config, envs: nat -> Env, w: Workspace): (State, nat)
    requires ValidConfig(cfg) && StepEnvs(envs) && Settled(cfg, w) && Executable(Loaded(cfg, w).status)
  {
    LoadedKeeps(cfg, w);
    Stepwise(cfg, envs, Loaded(cfg, w), 0)
  }

  /** One step of the chain: accepted, settled again, and one unfolding of Stepwise. */
  lemma {:induction false} StepFacts(cfg: Config, w: Workspace, envs: nat -> Env, k: nat)
    requires ValidConfig(cfg) && NodeEnvs(envs) && Settled(cfg, w) && Executable(Loaded(cfg, w).status)
    ensures ValidEnv(envs(k)) && ClockForward(envs(k)) && Sound(cfg, w) && Inv(cfg, Loaded(cfg, w))
    ensures Perform(cfg, w, RunCall(w, envs(k))).Ok?
    ensures var s := Loaded(cfg, w); var t := RunResult(cfg, envs(k), s);
      && ApplyAll(w, Perform(cfg, w, RunCall(w, envs(k))).value) == Workspace(t.events, Some(t))
      && Settled(cfg, Workspace(t.events, Some(t))) && Inv(cfg, t)
      && Stepwise(cfg, envs, s, k) == (if t.status == Running then Stepwise(cfg, envs, t, k + 1) else (t, k))
      && (t.status == Running ==> |t.pending| < |s.pending|)
  {
    hide Inv, LogSafe, ValidConfig, ValidEnv, ClockForward, RunResult, Perform, ApplyAll;
    assert ValidEnv(envs(k)) && ClockForward(envs(k)) && envs(k).maxSteps == Some(1);
    SettledSound(cfg, w);
    LoadedKeeps(cfg, w);
    SettledRun(cfg, w, envs(k));
    OneStep(cfg, envs(k), Loaded(cfg, w));
  }

  /** The graph, one objective per node visit, ends where one unbounded run_campaign would. */
  lemma GraphMatchesUnbounded(cfg: Config, env: Env, envs: nat -> Env, w: Workspace)
    requires ValidConfig(cfg) && ValidEnv(env) && env.maxSteps.None? && StepEnvs(envs) && Handover(env, envs)
    requires Settled(cfg, w) && Executable(Loaded(cfg, w).status)
    ensures Alike(StepwiseFrom(cfg, envs, w).0, RunResult(cfg, env, Loaded(cfg, w)))
  {
    hide ValidConfig, ValidEnv, Inv, LogSafe, RunResult, Alike, Stepwise;
    LoadedKeeps(cfg, w);
    StepwiseRefinesUnbounded(cfg, env, envs, Loaded(cfg, w));
  }

  /** A chain of single steps stops only at a pause or an end. */
  lemma {:induction false} StepwiseRests(cfg: Config, envs: nat -> Env, s: State, k: nat)
    requires ValidConfig(cfg) && StepEnvs(envs) && Inv(cfg, s) && Executable(s.status)
    ensures var (t, last) := Stepwise(cfg, envs, s, k); Rests(t.status) && last >= k
    decreases |s.pending|
  {
    hide ValidConfig, Inv, ValidEnv, RunResult;
    assert ValidEnv(envs(k)) && envs(k).maxSteps == Some(1);
    OneStep(cfg, envs(k), s);
    RunKeeps(cfg, envs(k), s);
    if RunResult(cfg, envs(k), s).status == Running {
      StepwiseRests(cfg, envs, RunResult(cfg, envs(k), s), k + 1);
    }
  }

  /** What a resumed invocation leaves: the reviewed state, stepped on from if the review allows. */
  ghost function ResumedState(cfg: Config, envs: nat -> Env, w: Workspace, r: Review): State
    requires ValidConfig(cfg) && StepEnvs(envs) && Settled(cfg, w) && Perform(cfg, w, Decide(r)).Ok?
  {
    SettledReview(cfg, w, r);
    var t := ApplyReview(cfg, w.checkpoint.value, r);
    if RouteAfterReview(t.status) == Continue then StepwiseFrom(cfg, envs, Workspace(t.events, Some(t))).0 else t
  }

  /** The nodes a resumed invocation visits: the review, each step after an approval, the next review. */
  ghost function ResumeVisits(cfg: Config, envs: nat -> Env, w: Workspace, r: Review): nat
    requires ValidConfig(cfg) && StepEnvs(envs) && Settled(cfg, w) && Perform(cfg, w, Decide(r)).Ok?
  {
    SettledReview(cfg, w, r);
    if r.choice == Approved then
      var (t, last) := StepwiseFrom(cfg, envs, After(cfg, w, Decide(r)));
      1 + (last + 1) + if t.status == Paused then 1 else 0
    else 1
  }

  /**
   A resumed graph: after an approval it ends where one unbounded run_campaign from the reviewed
   checkpoint would, waiting for the next review or over; any other decision is the end already.
   */
  lemma ResumeMatchesUnbounded(cfg: Config, env: Env, envs: nat -> Env, w: Workspace, r: Review)
    returns (s: State, t: State)
    requires ValidConfig(cfg) && ValidEnv(env) && env.maxSteps.None? && StepEnvs(envs) && Handover(env, envs)
    requires Settled(cfg, w) && Perform(cfg, w, Decide(r)).Ok?
    ensures w.checkpoint == Some(s) && After(cfg, w, Decide(r)).checkpoint == Some(t)
    ensures s.pending != [] && s.review.Some? && Moved(s, t, r.choice, s.review.value.phase)
    ensures Rests(ResumedState(cfg, envs, w, r).status)
    ensures r.choice == Approved ==> Alike(ResumedState(cfg, envs, w, r), RunResult(cfg, env, t))
    ensures r.choice != Approved ==> ResumedState(cfg, envs, w, r) == t
  {
    hide ValidConfig, ValidEnv, Inv, LogSafe, RunResult, Alike, Stepwise, ApplyReview, InStep, Perform, ApplyAll;
    SettledSound(cfg, w);
    SettledReview(cfg, w, r);
    s, t := ReviewAnswered(cfg, w, r);
    var reviewed := Workspace(t.events, Some(t));
    if r.choice == Approved {
      LoadedKeeps(cfg, reviewed);
      GraphMatchesUnbounded(cfg, env, envs, reviewed);
      StepwiseRests(cfg, envs, t, 0);
    }
  }

  /** What a review leaves ready to resume is accepted by the next run. */
  lemma ReviewedRuns(cfg: Config, w: Workspace, envs: nat -> Env)
    requires ValidConfig(cfg) && NodeEnvs(envs) && Settled(cfg, w) && w.checkpoint.Some?
    requires w.checkpoint.value.status == ReadyToResume
    ensures Perform(cfg, w, RunCall(w, envs(0))).Ok? && Sound(cfg, w)
  {
    hide ValidConfig, ValidEnv, ClockForward, Perform, InStep, Sound;
    assert ValidEnv(envs(0)) && ClockForward(envs(0));
    SettledSound(cfg, w);
    SettledRun(cfg, w, envs(0));
  }

  lemma StepsLeft(cfg: Config, s: State, w: Workspace)
    requires ValidConfig(cfg) && Sound(cfg, w) && Timed(w) && s == Loaded(cfg, w)
    ensures Left(cfg, s) <= cfg.limits.maxIterations && cfg.limits.maxIterations > 0
  {
    hide Inv, LogSafe, ById;
    LoadedSound(cfg, w);
    AtLeastFirst(cfg, s);
  }

  lemma AtLeastFirst(cfg: Config, s: State)
    requires Inv(cfg, s)
    ensures s.nextIteration >= 1
  {
  }

  class CampaignOrchestrator {
    const objectives: seq<Objective>
    const limits: Limits
    const hash: Hasher
    const identity: Identity
    const files: Files
    ghost const cfg: Config

    constructor (
      objectives: seq<Objective>, limits: Limits, hash: Hasher, identity: Identity, files: Files, ghost cfg: Config)
      requires ValidConfig(cfg) && cfg == Config(objectives, cfg.order, limits, hash, identity)
      ensures this.files == files && this.cfg == cfg && Bound()
    {
      this.objectives, this.limits, this.hash, this.identity := objectives, limits, hash, identity;
      this.files, this.cfg := files, cfg;
    }

    ghost predicate Bound() {
      ValidConfig(cfg) && cfg == Config(objectives, cfg.order, limits, hash, identity)
    }

    /**
     The campaign_step node, in whatever state a crash left the workspace: a terminal checkpoint is
     only reported; otherwise one objective runs, or the run is refused and nothing changes.
     */
    method CampaignStep(env: Env) returns (r: Result<Status, Refusal>)
      requires Bound() && files.Valid() && ValidEnv(env) && ClockForward(env)
      requires Sound(cfg, files.View()) && Timed(files.View())
      modifies files
      ensures files.Valid()
      ensures Terminal(Loaded(cfg, old(files.View())).status) ==>
        r == Ok(Loaded(cfg, old(files.View())).status) && files.View() == old(files.View())
      ensures !Terminal(Loaded(cfg, old(files.View())).status) ==>
        var p := Perform(cfg, old(files.View()), RunCall(old(files.View()), env));
        && (r.Err? <==> p.Err?) && (r.Err? ==> r.error == p.error && files.View() == old(files.View()))
        && (r.Ok? ==> files.View() == ApplyAll(old(files.View()), p.value))
        && (r.Ok? ==> files.checkpoint == Some(RunResult(cfg, env, Loaded(cfg, old(files.View())))))
        && (r.Ok? ==> r.value == files.checkpoint.value.status)
    {
      hide Inv, LogSafe, ValidConfig, ValidEnv, ClockForward, Perform, Run, RunResult, ApplyAll;
      LoadedSound(cfg, files.View());
      var starting := files.checkpoint.None?;
      var campaign: Campaign;
      if starting {
        AcceptedObjectives(cfg);
        campaign := new Campaign.Fresh(objectives, limits, hash, identity, files);
        SameConfig(cfg, campaign.cfg);
      } else {
        campaign := new Campaign.Load(cfg, objectives, limits, hash, identity, files);
        if Terminal(campaign.status) {
          return Ok(campaign.status);
        }
      }
      var answer := campaign.RunCampaign(env, starting);
      if answer.Err? {
        return Err(answer.error);
      }
      r := Ok(campaign.status);
    }

    /**
     campaign_step repeated while the status is running: the graph's own loop.  Only the first visit
     can be refused or find a terminal checkpoint; then nothing changes.
     */
    method StepUntilRouted(envs: nat -> Env) returns (r: Result<(Status, nat), Refusal>)
      requires Bound() && files.Valid() && NodeEnvs(envs) && Sound(cfg, files.View()) && Timed(files.View())
      modifies files
      ensures files.Valid()
      ensures Terminal(Loaded(cfg, old(files.View())).status) ==>
        r == Ok((Loaded(cfg, old(files.View())).status, 1)) && files.View() == old(files.View())
      ensures !Terminal(Loaded(cfg, old(files.View())).status) ==>
        var p := Perform(cfg, old(files.View()), RunCall(old(files.View()), envs(0)));
        (r.Err? <==> p.Err?) && (r.Err? ==> r.error == p.error && files.View() == old(files.View()))
      ensures r.Ok? && !Terminal(Loaded(cfg, old(files.View())).status) ==>
        && Settled(cfg, old(files.View())) && Executable(Loaded(cfg, old(files.View())).status)
        && Settled(cfg, files.View()) && files.checkpoint.Some? && r.value.0 == files.checkpoint.value.status
        && (files.checkpoint.value, r.value.1 - 1) == StepwiseFrom(cfg, envs, old(files.View()))
        && r.value.1 <= Left(cfg, Loaded(cfg, old(files.View()))) + 1
      ensures r.Ok? ==> Rests(r.value.0)
    {
      hide Inv, InStep, ValidConfig, ValidEnv, ClockForward, RunResult;
      hide Left, Stepwise, Files.Valid, Perform, ApplyAll, Sound;
      ghost var w0 := files.View();
      ghost var s0 := Loaded(cfg, w0);
      assert ValidEnv(envs(0)) && ClockForward(envs(0));
      var answer := CampaignStep(envs(0));
      if answer.Err? {
        return Err(answer.error);
      }
      var status := answer.value;
      if !Terminal(s0.status) {
        RunWasSettled(cfg, w0, envs(0));
        LoadedKeeps(cfg, w0);
        StepwiseIsShort(cfg, envs, s0, 0);
        StepwiseRests(cfg, envs, s0, 0);
        StepFacts(cfg, w0, envs, 0);
      }
      var visits := 1;
      if RouteAfterStep(status) != Continue {
        return Ok((status, visits));
      }
      ghost var s := files.checkpoint.value;
      while RouteAfterStep(status) == Continue
        invariant files.Valid() && Settled(cfg, files.View()) && files.checkpoint.Some? && visits > 0
        invariant s == files.checkpoint.value && status == s.status && Inv(cfg, s)
        invariant Stepwise(cfg, envs, s0, 0)
               == if status == Running then Stepwise(cfg, envs, s, visits) else (s, visits - 1)
        decreases if status == Running then |s.pending| + 1 else 0
      {
        StepFacts(cfg, files.View(), envs, visits);
        answer := CampaignStep(envs(visits));
        status := answer.value;
        s := files.checkpoint.value;
        visits := visits + 1;
      }
      r := Ok((status, visits));
    }

    /**
     start(), over whatever a crash or an earlier campaign left in the workspace: a terminal
     checkpoint is only reported, a workspace that no run accepts is refused; otherwise the campaign
     is stepped to a pause or an end, within the recursion limit.
     */
    method Start(envs: nat -> Env) returns (r: Result<(Status, nat), Refusal>)
      requires Bound() && files.Valid() && NodeEnvs(envs) && Sound(cfg, files.View()) && Timed(files.View())
      modifies files
      ensures files.Valid()
      ensures Terminal(Loaded(cfg, old(files.View())).status) ==>
        r == Ok((Loaded(cfg, old(files.View())).status, 1)) && files.View() == old(files.View())
      ensures !Terminal(Loaded(cfg, old(files.View())).status) ==>
        var p := Perform(cfg, old(files.View()), RunCall(old(files.View()), envs(0)));
        (r.Err? <==> p.Err?) && (r.Err? ==> r.error == p.error && files.View() == old(files.View()))
      ensures r.Ok? && !Terminal(Loaded(cfg, old(files.View())).status) ==>
        && Settled(cfg, old(files.View())) && Executable(Loaded(cfg, old(files.View())).status)
        && Settled(cfg, files.View()) && files.checkpoint.Some? && r.value.0 == files.checkpoint.value.status
        && files.checkpoint.value == StepwiseFrom(cfg, envs, old(files.View())).0
        && r.value.1 == StepwiseFrom(cfg, envs, old(files.View())).1 + (if r.value.0 == Paused then 2 else 1)
      ensures r.Ok? ==> Rests(r.value.0)
      ensures r.Ok? ==> r.value.1 <= limits.maxIterations + 2 < limits.maxIterations * 4 + 20
    {
      hide Inv, InStep, ValidConfig, ValidEnv, ClockForward, Stepwise, StepwiseFrom, Perform, Files.Valid, Sound;
      StepsLeft(cfg, Loaded(cfg, files.View()), files.View());
      r := StepUntilRouted(envs);
      if r.Ok? && RouteAfterStep(r.value.0) == ToReview {
        r := Ok((r.value.0, r.value.1 + 1));  // the human_review node interrupts here
      }
    }

    /**
     resume(), in whatever state a crash left the workspace: the human_review node applies the
     decision, then steps again until the next pause or end; a refused decision changes nothing.
     */
    method Resume(r: Review, envs: nat -> Env) returns (answer: Result<(Status, nat), Refusal>)
      requires Bound() && files.Valid() && NodeEnvs(envs)
      requires Sound(cfg, files.View()) && Timed(files.View()) && files.checkpoint.Some?
      modifies files
      ensures files.Valid() && files.checkpoint.Some?
      ensures answer.Ok? <==> Perform(cfg, old(files.View()), Decide(r)).Ok?
      ensures answer.Err? ==> files.View() == old(files.View())
      ensures answer.Ok? ==> Settled(cfg, old(files.View())) && Settled(cfg, files.View())
      ensures answer.Ok? ==>
        && answer.value.0 == files.checkpoint.value.status && Rests(answer.value.0)
        && answer.value.1 <= limits.maxIterations + 2 < limits.maxIterations * 4 + 20
        && files.checkpoint.value == ResumedState(cfg, envs, old(files.View()), r)
        && answer.value.1 == ResumeVisits(cfg, envs, old(files.View()), r)
    {
      hide Inv, LogSafe, ValidConfig, ValidEnv, ClockForward, LogMatches;
      hide ApplyReview, Writes, ApplyAll, StepwiseFrom, Perform, Files.Valid, SavesOf, Answered;
      ghost var w := files.View();
      LoadedSound(cfg, w);
      var campaign := new Campaign.Load(cfg, objectives, limits, hash, identity, files);
      var decided := campaign.ApplyReviewDecision(r);
      if decided.Err? {
        return Err(decided.error);
      }
      ReviewedWasSettled(cfg, w, r);
      SettledReview(cfg, w, r);
      ghost var before, after := ReviewAnswered(cfg, w, r);
      var status, visits := campaign.status, 1;
      if RouteAfterReview(status) == Continue {
        ReviewedRuns(cfg, files.View(), envs);
        var stepped := StepUntilRouted(envs);
        status, visits := stepped.value.0, visits + stepped.value.1;
        if RouteAfterStep(status) == ToReview {
          visits := visits + 1;
        }
      }
      answer := Ok((status, visits));
    }
  }

  lemma AcceptedObjectives(cfg: Config)
    requires ValidConfig(cfg)
    ensures Known(ById(cfg.objectives)) && Acyclic(ById(cfg.objectives)) && Distinct(Ids(cfg.objectives))
    ensures cfg.limits.maxIterations > 0 && ValidIdentity(cfg.identity) && forall b :: DigestForm(cfg.hash(b))
  {
    CanonicalIsTopological(ById(cfg.objectives), cfg.order);
  }

  lemma SameConfig(a: Config, b: Config)
    requires ValidConfig(a) && ValidConfig(b) && a.objectives == b.objectives
    requires a.limits == b.limits && a.hash == b.hash && a.identity == b.identity
    ensures a == b
  {
    CanonicalUnique(ById(a.objectives), a.order, b.order);
  }
}
