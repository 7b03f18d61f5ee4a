/**
 What the campaign entry points compute, as functions on checkpoint values.

 An operation is described by the checkpoints it saves, in order.  The events of a checkpoint
 that the previous one lacks are appended to the log just before it is saved, so the list also
 fixes the interleaving of log appends and saves (see Disk).
 */
module CampaignSpec {
  import opened Basics
  import opened Objectives
  import opened EventLog
  import opened CampaignState

  /** An accepted campaign: its objectives, the order they are scheduled in, limits, event hash, identity. */
  datatype Config = Config(
    objectives: seq<Objective>, order: seq<Objective>, limits: Limits, hash: Hasher, identity: Identity)

  ghost predicate ValidConfig(cfg: Config) {
    && Distinct(Ids(cfg.objectives))
    && Canonical(ById(cfg.objectives), cfg.order)
    && cfg.limits.maxIterations > 0
    && ValidIdentity(cfg.identity) && (forall b :: DigestForm(cfg.hash(b)))
  }

  datatype Execution = Execution(verdict: Verdict, requests: nat)

  datatype Moment = BudgetCheck | IterationEnd

  /**
   Everything one invocation draws from outside: mode, policy gate, executor, clock readings,
   event stamps, and the step limit.  The gate sees the objective, whether it carries human
   approval, and the iteration (its answer may change with time).
   */
  datatype Env = Env(
    live: bool,
    gate: (Objective, bool, int) -> seq<Reason>,
    executor: (Objective, int) -> Execution,
    started: real, clock: (int, Moment) -> real, ended: real,
    stamp: nat -> string,
    maxSteps: Option<nat>)

  ghost predicate GateRespects(env: Env, o: Objective, approved: bool, i: int) {
    var reasons := env.gate(o, approved, i);
    && (HumanApprovalRequired in reasons ==> o.requiresApproval && !env.live && !approved)
    && (reasons == [] && o.requiresApproval && !env.live ==> approved)
  }

  ghost predicate ExecutorRespects(env: Env, o: Objective, i: int) {
    && (env.executor(o, i).verdict == ManualReview <==> env.live)
    && env.executor(o, i).requests <= o.requestBudget
  }

  /** The facts about the gate and the executor that the engine relies on. */
  ghost predicate ValidEnv(env: Env) {
    && (forall o, approved, i :: GateRespects(env, o, approved, i))
    && (forall o, i :: ExecutorRespects(env, o, i))
  }

  /** Within one invocation the clock never reads less than when it started. */
  ghost predicate ClockForward(env: Env) {
    (forall i, m :: env.clock(i, m) >= env.started) && env.ended >= env.started
  }

  /** The objective the loop reaches next: the schedule position after the completed ones. */
  function HeadObjective(cfg: Config, s: State): Objective
    requires |s.completed| < |cfg.order|
  {
    cfg.order[|s.completed|]
  }

  /** The network-silent executor of this release. */
  function StubExecution(live: bool): Execution {
    if live then Execution(ManualReview, 0) else Execution(Inconclusive, 0)
  }

  // ----- Building blocks -----

  function Appended(cfg: Config, env: Env, s: State, d: Draft): State {
    var e := Sealed(cfg.hash, s.events, env.stamp(|s.events| + 1), d);
    s.(events := s.events + [e], lastHash := e.hash)
  }

  function Saved(s: State): State {
    s.(revision := s.revision + 1)
  }

  /** Moves the objective from pending to stopped and leaves nothing current. */
  function StopObjective(s: State, id: Id, status: Status): State {
    s.(pending := Remove(s.pending, id), stopped := s.stopped + [id], current := None, status := status)
  }

  function CompleteObjective(s: State, id: Id, status: Status): State {
    s.(pending := Remove(s.pending, id), completed := s.completed + [id], current := None, status := status)
  }

  function InitialState(cfg: Config): State {
    State(Planned, Ids(cfg.order), [], [], [], [], None, None, false, 1, 0, 0, 0, 0, 0.0, [], [], None)
  }

  function CountersOf(s: State): Counters {
    Counters(s.nextIteration - 1, s.requests, s.minute, s.failures)
  }

  // ----- The ways one objective can end the loop or let it go on -----

  function FuzzingStopped(cfg: Config, env: Env, s: State, o: Objective): State {
    var stopped := StopObjective(s, o.id, StoppedByCondition)
      .(history := s.history
          + seq(|o.stopSignals|, i requires 0 <= i < |o.stopSignals| => SignalNote(o.stopSignals[i])),
        nextIteration := s.nextIteration + 1);
    Appended(cfg, env, stopped, Draft(CampaignStop, s.nextIteration, Some(o.id), FuzzingSafetyStop,
                                      ConditionStopOutcome, StopConditions(o.stopSignals)))
  }

  function LockoutPaused(cfg: Config, env: Env, s: State, o: Objective): State {
    var paused := s.(current := Some(o.id), status := Paused, review := Some(PendingReview(o.id, PreExecution)),
                     history := s.history + [LockoutNote(o.id)], nextIteration := s.nextIteration + 1);
    Appended(cfg, env, paused, Draft(CampaignPaused, s.nextIteration, Some(o.id), LockoutPause,
                                     PausedOutcome, Phased(PreExecution)))
  }

  function PreExecutionStopped(cfg: Config, env: Env, s: State, o: Objective, why: StopReason): State {
    var status := if s.operatorStop then StoppedByOperator else StoppedByBudget;
    var stopped := StopObjective(s, o.id, status)
      .(history := s.history + [StopReasonNote(why)], nextIteration := s.nextIteration + 1);
    Appended(cfg, env, stopped, Draft(CampaignStop, s.nextIteration, Some(o.id), StoppedBy(why),
                                      VerdictOutcome(PolicyStop), StopDetail(why)))
  }

  datatype Attempt = Attempt(reasons: seq<Reason>, verdict: Verdict, requests: nat)
  {
    predicate Allowed() { reasons == [] }
    predicate GateOnly() { reasons == [HumanApprovalRequired] }
    predicate Failed() { verdict == Fail || verdict == PolicyStop }
  }

  /** The gate's answer and, only if it allows, the executor's. */
  function AttemptAt(env: Env, s: State, o: Objective): Attempt {
    var reasons := env.gate(o, o.id in s.reviewed, s.nextIteration);
    if reasons == [] then
      var x := env.executor(o, s.nextIteration);
      Attempt(reasons, x.verdict, x.requests)
    else Attempt(reasons, if reasons == [HumanApprovalRequired] then ManualReview else PolicyStop, 0)
  }

  /** The objective is marked current; this is saved before the gate is asked. */
  function Marked(s: State, o: Objective): State {
    Saved(s.(current := Some(o.id)))
  }

  /** Counters charged and the objective_result event appended. */
  function ResultLogged(cfg: Config, env: Env, s: State, o: Objective, a: Attempt): State {
    var charged := Charged(CountersOf(s), a.requests, a.Failed());
    var s1 := s.(requests := s.requests + a.requests, minute := charged.minute, failures := charged.failures);
    Appended(cfg, env, s1, Draft(ObjectiveResult, s.nextIteration, Some(o.id), GateDecision(a.reasons),
                                 VerdictOutcome(a.verdict), NoDetails))
      .(nextIteration := s.nextIteration + 1)
  }

  function PausedAfter(cfg: Config, env: Env, s: State, o: Objective, phase: Phase, note: StopNote): State {
    var paused := s.(status := Paused, review := Some(PendingReview(o.id, phase)), history := s.history + [note]);
    Appended(cfg, env, paused, Draft(CampaignPaused, s.nextIteration - 1, Some(o.id), NoPolicy,
                                     PausedOutcome, Phased(phase)))
  }

  function PolicyStopped(s: State, o: Objective, reasons: seq<Reason>): State {
    StopObjective(s, o.id, StoppedByPolicy)
      .(history := s.history + seq(|reasons|, i requires 0 <= i < |reasons| => PolicyNoteEntry(reasons[i])))
  }

  /** Where the objective goes after its result was logged. */
  function Disposed(cfg: Config, env: Env, s: State, o: Objective, a: Attempt): State {
    if a.GateOnly() then PausedAfter(cfg, env, s, o, PreExecution, ApprovalNote(o.id))
    else if !a.Allowed() then PolicyStopped(s, o, a.reasons)
    else if a.verdict == ManualReview then PausedAfter(cfg, env, s, o, PostExecution, ReviewNeededNote(o.id))
    else CompleteObjective(s, o.id, Running)
  }

  function Executed(cfg: Config, env: Env, s: State, o: Objective, base: real): State {
    var a := AttemptAt(env, s, o);
    var s1 := Disposed(cfg, env, ResultLogged(cfg, env, Marked(s, o), o, a), o, a);
    Saved(s1.(elapsed := base + (env.clock(s.nextIteration, IterationEnd) - env.started)))
  }

  // ----- The loop -----

  /** The state in memory and the checkpoints saved so far. */
  datatype Progress = Progress(s: State, saves: seq<State>)

  function DenialFor(cfg: Config, env: Env, s: State, o: Objective, base: real): Option<StopReason> {
    if s.operatorStop then Some(OperatorStopReason)
    else Denial(cfg.limits, CountersOf(s), base + (env.clock(s.nextIteration, BudgetCheck) - env.started),
                o.requestBudget)
  }

  /** One pass of the loop body over a pending objective. */
  function Visit(cfg: Config, env: Env, s: State, o: Objective, base: real): Progress {
    if o.stopSignals != [] then
      var t := Saved(FuzzingStopped(cfg, env, s, o));
      Progress(t, [t])
    else if o.lockoutRisk && o.id !in s.reviewed then
      var t := Saved(LockoutPaused(cfg, env, s, o));
      Progress(t, [t])
    else
      var denial := DenialFor(cfg, env, s, o, base);
      if denial.Some? then Progress(PreExecutionStopped(cfg, env, s, o, denial.value), [])
      else
        var t := Executed(cfg, env, s, o, base);
        Progress(t, [Marked(s, o), t])
  }

  function OutOfSteps(env: Env, steps: nat): bool {
    env.maxSteps.Some? && steps >= env.maxSteps.value
  }

  /** The rest of the loop over the schedule, from position k. */
  function Loop(cfg: Config, env: Env, s: State, k: nat, steps: nat, base: real): Progress
    decreases |cfg.order| - k
  {
    if k >= |cfg.order| then Progress(s, [])
    else if cfg.order[k].id !in s.pending then Loop(cfg, env, s, k + 1, steps, base)
    else if OutOfSteps(env, steps) then Progress(s, [])
    else
      var v := Visit(cfg, env, s, cfg.order[k], base);
      if v.s.status != Running then v
      else
        var rest := Loop(cfg, env, v.s, k + 1, steps + 1, base);
        Progress(rest.s, v.saves + rest.saves)
  }

  /** After the loop: completion, and the last save. */
  function Finished(cfg: Config, env: Env, s: State, base: real): State {
    var t := s.(elapsed := base + (env.ended - env.started));
    if s.status == Running && s.pending == [] then
      Saved(Appended(cfg, env, t.(status := Completed, current := None),
                     Draft(CampaignFinished, 0, None, NoPolicy, CompletedOutcome, IterationCount(s.nextIteration - 1))))
    else Saved(t)
  }

  // ----- Entry points -----

  datatype Refusal =
    | NoCheckpoint | StatusRefused | UnknownObjectives | CheckpointExists | LogExists | LogMismatch
    | NotPaused | FutureDecision | StateHashWrong | CampaignWrong | ObjectiveWrong | OperatorWrong | NotStoppable

  /** The start of an accepted run: started or resumed events, then Running. */
  function Begun(cfg: Config, env: Env, s: State): State {
    var s1 := if s.events == [] then
                Appended(cfg, env, s, Draft(CampaignStarted, 0, None, NoPolicy, PlannedOutcome, NoDetails))
              else s;
    var s2 := if s.status == ReadyToResume then
                Appended(cfg, env, s1, Draft(CampaignResumed, 0, None, NoPolicy, RunningOutcome, NoDetails))
              else s1;
    Saved(s2.(status := Running))
  }

  /** run_campaign once its checks have passed: the checkpoints it saves. */
  function Run(cfg: Config, env: Env, s: State): (saves: seq<State>)
    ensures saves != []
  {
    var begun := Begun(cfg, env, s);
    var p := Loop(cfg, env, begun, 0, 0, begun.elapsed);
    [begun] + p.saves + [Finished(cfg, env, p.s, begun.elapsed)]
  }

  function RunResult(cfg: Config, env: Env, s: State): State {
    var saves := Run(cfg, env, s);
    saves[|saves| - 1]
  }

  /** A review decision, when it is handed in, and the stamp of its event. */
  datatype Review = Review(
    decisionId: string, campaign: string, objective: Id, operator: string, choice: ReviewChoice,
    stateHash: Digest, decidedAt: int, handedInAt: int, stamp: string)

  function ReviewDraft(s: State, r: Review, phase: Phase): Draft {
    Draft(ReviewDecision, s.nextIteration - 1, Some(r.objective), NoPolicy,
          ReviewOutcome(r.choice), Reviewed(r.decisionId, phase))
  }

  /** Where the reviewed objective goes. */
  function Decided(s: State, r: Review, phase: Phase): State {
    match r.choice
    case Approved =>
      if phase == PreExecution then
        s.(reviewed := if r.objective in s.reviewed then s.reviewed else s.reviewed + [r.objective],
           current := None, status := ReadyToResume)
      else CompleteObjective(s, r.objective, ReadyToResume)
    case Denied => StopObjective(s, r.objective, StoppedByCondition)
    case StopCampaign => StopObjective(s.(operatorStop := true), r.objective, StoppedByOperator)
  }

  function ApplyReview(cfg: Config, s: State, r: Review): State
    requires s.review.Some?
  {
    var phase := s.review.value.phase;
    var e := Sealed(cfg.hash, s.events, r.stamp, ReviewDraft(s, r, phase));
    var s1 := s.(review := None, history := s.history + [ReviewNote(r.objective, r.choice, r.decisionId)],
                 events := s.events + [e], lastHash := e.hash);
    Saved(Decided(s1, r, phase))
  }

  /** The current objective, if any, is stopped. */
  function CurrentCleared(s: State): State {
    if s.current.Some? then
      s.(pending := Remove(s.pending, s.current.value),
         stopped := if s.current.value in s.stopped then s.stopped else s.stopped + [s.current.value],
         current := None)
    else s
  }

  function Halted(s: State): State {
    var cleared := CurrentCleared(s.(operatorStop := true, review := None));
    cleared.(status := StoppedByOperator, history := cleared.history + [OperatorNote])
  }

  /** request_operator_stop; the log is not verified first. */
  function OperatorStopped(cfg: Config, s: State, stamp: string): State {
    var e := Sealed(cfg.hash, s.events, stamp, Draft(OperatorStop, 0, None, NoPolicy, OperatorStopOutcome, NoDetails));
    Saved(Halted(s).(events := s.events + [e], lastHash := e.hash))
  }
}
