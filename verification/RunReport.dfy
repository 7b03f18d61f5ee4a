/**
 A whole run in plain terms: what each objective meets, why the run ends, and every field of every
 checkpoint it leaves.  The definitions use the inputs of the run only, not the functions that say
 how the engine computes it.
 */
module RunReport {
  import opened Basics
  import opened Objectives
  import opened EventLog
  import opened CampaignState
  import opened CampaignSpec
  import opened CampaignInvariant
  import opened CampaignSteps
  import opened CampaignRuns
  import opened StepRefinement

  /** The objectives still to be visited: the schedule from the head on. */
  function Ahead(cfg: Config, s: State): seq<Objective> {
    if |s.completed| <= |cfg.order| then cfg.order[|s.completed|..] else []
  }

  // ----- What the j-th objective of a run from s meets -----

  function Reasons(env: Env, s: State, todo: seq<Objective>, j: nat): seq<Reason>
    requires j < |todo|
  {
    env.gate(todo[j], todo[j].id in s.reviewed, s.nextIteration + j)
  }

  function Answer(env: Env, s: State, todo: seq<Objective>, j: nat): Verdict
    requires j < |todo|
  {
    if Reasons(env, s, todo, j) == [] then env.executor(todo[j], s.nextIteration + j).verdict
    else if Reasons(env, s, todo, j) == [HumanApprovalRequired] then ManualReview
    else PolicyStop
  }

  function Cost(env: Env, s: State, todo: seq<Objective>, j: nat): nat
    requires j < |todo|
  {
    if Reasons(env, s, todo, j) == [] then env.executor(todo[j], s.nextIteration + j).requests else 0
  }

  /** The requests of the first n executions. */
  function Spent(env: Env, s: State, todo: seq<Objective>, n: nat): nat
    requires n <= |todo|
  {
    if n == 0 then 0 else Spent(env, s, todo, n - 1) + Cost(env, s, todo, n - 1)
  }

  /** How many executions in a row have failed after n of them. */
  function Streak(env: Env, s: State, todo: seq<Objective>, n: nat): int
    requires n <= |todo|
  {
    if n == 0 then s.failures
    else if Answer(env, s, todo, n - 1) in {Fail, PolicyStop} then Streak(env, s, todo, n - 1) + 1
    else 0
  }

  /** What the clock had last written to the checkpoint before the j-th objective. */
  function ElapsedBefore(env: Env, s: State, j: nat): real {
    if j == 0 then s.elapsed else s.elapsed + (env.clock(s.nextIteration + j - 1, IterationEnd) - env.started)
  }

  /** A limit that does not let the j-th objective start. */
  ghost predicate Exceeds(cfg: Config, env: Env, s: State, todo: seq<Objective>, j: nat, why: StopReason)
    requires j < |todo|
  {
    var l, asked := cfg.limits, Spent(env, s, todo, j) + todo[j].requestBudget;
    match why
    case OperatorStopReason => s.operatorStop
    case IterationLimit => s.nextIteration + j > l.maxIterations
    case RuntimeLimit =>
      s.elapsed + (env.clock(s.nextIteration + j, BudgetCheck) - env.started) >= l.maxRuntimeSeconds as real
    case RequestLimit => s.requests + asked > l.campaignMaxRequests || s.requests + asked > l.scopeMaxRequests
    case RateLimit => s.minute + asked > l.requestsPerMinute
    case ConsecutiveFailureLimit => Streak(env, s, todo, j) >= l.maxFailures
  }

  /** The order in which the limits are looked at. */
  function Precedence(why: StopReason): nat {
    match why
    case OperatorStopReason => 0
    case IterationLimit => 1
    case RuntimeLimit => 2
    case RequestLimit => 3
    case RateLimit => 4
    case ConsecutiveFailureLimit => 5
  }

  ghost predicate FirstExceeded(cfg: Config, env: Env, s: State, todo: seq<Objective>, j: nat, why: StopReason)
    requires j < |todo|
  {
    && Exceeds(cfg, env, s, todo, j, why)
    && forall w :: Precedence(w) < Precedence(why) ==> !Exceeds(cfg, env, s, todo, j, w)
  }

  /** No stop signal, no lockout risk without its review. */
  predicate Unobstructed(s: State, o: Objective) {
    o.stopSignals == [] && (o.lockoutRisk ==> o.id in s.reviewed)
  }

  ghost predicate Admitted(cfg: Config, env: Env, s: State, todo: seq<Objective>, j: nat)
    requires j < |todo|
  {
    Unobstructed(s, todo[j]) && forall why :: !Exceeds(cfg, env, s, todo, j, why)
  }

  /** The j-th objective is executed and completed. */
  ghost predicate Passes(cfg: Config, env: Env, s: State, todo: seq<Objective>, j: nat)
    requires j < |todo|
  {
    && Admitted(cfg, env, s, todo, j)
    && Reasons(env, s, todo, j) == [] && Answer(env, s, todo, j) != ManualReview
  }

  // ----- Why a run ends -----

  datatype Ending =
    | Finish                      // nothing is left
    | StepLimit                   // max_steps objectives have been executed
    | Signalled                   // the next objective carries stop signals
    | LockedOut                   // it risks a lockout and has not been reviewed
    | OverLimit(why: StopReason)  // a limit does not let it start
    | HeldAtGate                  // the gate asks for human approval and nothing else
    | Refused                     // the gate refuses it
    | AwaitsReview                // its result is for a human to judge
  {
    predicate AfterResult() { HeldAtGate? || Refused? || AwaitsReview? }
    predicate StopsHead() { Signalled? || OverLimit? || Refused? }
    predicate Quiet() { Finish? || StepLimit? }
    function Pause(): Option<Phase> {
      if LockedOut? || HeldAtGate? then Some(PreExecution)
      else if AwaitsReview? then Some(PostExecution) else None
    }
    function Status(): Status {
      match this
      case Finish => Completed
      case StepLimit => Running
      case Signalled => StoppedByCondition
      case OverLimit(_) => StoppedByBudget
      case Refused => StoppedByPolicy
      case LockedOut => Paused
      case HeldAtGate => Paused
      case AwaitsReview => Paused
    }
  }

  /** After `done` completions the run ends, for this reason. */
  ghost predicate EndsBy(cfg: Config, env: Env, s: State, todo: seq<Objective>, done: nat, e: Ending) {
    && done <= |todo| && (e.Finish? <==> done == |todo|)
    && (e.StepLimit? ==> env.maxSteps == Some(done))
    && (!e.Quiet() ==> (env.maxSteps.Some? ==> done < env.maxSteps.value) && HeadEnds(cfg, env, s, todo, done, e))
  }

  ghost predicate HeadEnds(cfg: Config, env: Env, s: State, todo: seq<Objective>, j: nat, e: Ending)
    requires j < |todo| && !e.Quiet()
  {
    var o := todo[j];
    && (e.Signalled? ==> o.stopSignals != [])
    && (e.LockedOut? ==> o.stopSignals == [] && o.lockoutRisk && o.id !in s.reviewed)
    && (e.OverLimit? ==> Unobstructed(s, o) && FirstExceeded(cfg, env, s, todo, j, e.why))
    && (e.AfterResult() ==> Admitted(cfg, env, s, todo, j))
    && (e.HeldAtGate? ==> Reasons(env, s, todo, j) == [HumanApprovalRequired])
    && (e.Refused? ==> Reasons(env, s, todo, j) !in {[], [HumanApprovalRequired]})
    && (e.AwaitsReview? ==> Reasons(env, s, todo, j) == [] && Answer(env, s, todo, j) == ManualReview)
  }

  // ----- What a run logs -----

  /** The events that open a run. */
  function Opening(s: State): seq<Draft> {
    (if s.events == [] then [Draft(CampaignStarted, 0, None, NoPolicy, PlannedOutcome, NoDetails)] else [])
    + if s.status == ReadyToResume then [Draft(CampaignResumed, 0, None, NoPolicy, RunningOutcome, NoDetails)] else []
  }

  function ResultDraft(env: Env, s: State, todo: seq<Objective>, j: nat): Draft
    requires j < |todo|
  {
    Draft(ObjectiveResult, s.nextIteration + j, Some(todo[j].id), GateDecision(Reasons(env, s, todo, j)),
          VerdictOutcome(Answer(env, s, todo, j)), NoDetails)
  }

  /** The log up to n results. */
  function LogAt(env: Env, s: State, todo: seq<Objective>, n: nat): seq<Draft>
    requires n <= |todo|
  {
    Drafts(s.events) + Opening(s) + seq(n, j requires 0 <= j < n => ResultDraft(env, s, todo, j))
  }

  /** The event that closes a run. */
  function Closing(s: State, todo: seq<Objective>, done: nat, e: Ending): seq<Draft>
    requires done <= |todo| && (done == |todo| ==> e.Quiet())
  {
    var i := s.nextIteration + done;
    match e
    case Finish => [Draft(CampaignFinished, 0, None, NoPolicy, CompletedOutcome, IterationCount(i - 1))]
    case StepLimit => []
    case Refused => []
    case Signalled =>
      [Draft(CampaignStop, i, Some(todo[done].id), FuzzingSafetyStop, ConditionStopOutcome,
             StopConditions(todo[done].stopSignals))]
    case OverLimit(why) =>
      [Draft(CampaignStop, i, Some(todo[done].id), StoppedBy(why), VerdictOutcome(PolicyStop), StopDetail(why))]
    case LockedOut =>
      [Draft(CampaignPaused, i, Some(todo[done].id), LockoutPause, PausedOutcome, Phased(PreExecution))]
    case HeldAtGate =>
      [Draft(CampaignPaused, i, Some(todo[done].id), NoPolicy, PausedOutcome, Phased(PreExecution))]
    case AwaitsReview =>
      [Draft(CampaignPaused, i, Some(todo[done].id), NoPolicy, PausedOutcome, Phased(PostExecution))]
  }

  /** What the end of a run adds to the stop history. */
  function Notes(env: Env, s: State, todo: seq<Objective>, done: nat, e: Ending): seq<StopNote>
    requires done <= |todo| && (done == |todo| ==> e.Quiet())
  {
    match e
    case Finish => []
    case StepLimit => []
    case Signalled =>
      var signals := todo[done].stopSignals;
      seq(|signals|, i requires 0 <= i < |signals| => SignalNote(signals[i]))
    case OverLimit(why) => [StopReasonNote(why)]
    case LockedOut => [LockoutNote(todo[done].id)]
    case HeldAtGate => [ApprovalNote(todo[done].id)]
    case Refused =>
      var reasons := Reasons(env, s, todo, done);
      seq(|reasons|, i requires 0 <= i < |reasons| => PolicyNoteEntry(reasons[i]))
    case AwaitsReview => [ReviewNeededNote(todo[done].id)]
  }

  /** The log grows, each new event with the stamp of its place. */
  ghost predicate Stamped(env: Env, before: seq<Event>, after: seq<Event>) {
    before <= after && forall i :: |before| <= i < |after| ==> after[i].body.stamp == env.stamp(i + 1)
  }

  // ----- The checkpoints a run leaves -----

  /** Inside the run: j objectives completed, this one current. */
  ghost predicate Between(env: Env, s: State, todo: seq<Objective>, v: State, j: nat, current: Option<Id>) {
    && j <= |todo| && v.status == Running && v.current == current && v.review.None?
    && v.completed == s.completed + Ids(todo)[..j] && v.pending == Ids(todo)[j..] && v.stopped == s.stopped
    && v.skipped == s.skipped && v.reviewed == s.reviewed && v.operatorStop == s.operatorStop
    && v.nextIteration == s.nextIteration + j
    && v.requests == s.requests + Spent(env, s, todo, j) && v.minute == s.minute + Spent(env, s, todo, j)
    && v.failures == Streak(env, s, todo, j) && v.history == s.history
    && Drafts(v.events) == LogAt(env, s, todo, j) && Stamped(env, s.events, v.events)
  }

  /** At the end of the run, but for the elapsed time and the revision. */
  ghost predicate Ended(env: Env, s: State, todo: seq<Objective>, t: State, done: nat, e: Ending)
    requires done <= |todo| && (done == |todo| ==> e.Quiet())
  {
    var n := if e.AfterResult() then done + 1 else done;
    && t.status == e.Status()
    && t.completed == s.completed + Ids(todo)[..done]
    && t.stopped == s.stopped + (if e.StopsHead() then [todo[done].id] else [])
    && t.pending == Ids(todo)[if e.StopsHead() then done + 1 else done..]
    && t.skipped == s.skipped && t.reviewed == s.reviewed && t.operatorStop == s.operatorStop
    && t.current == (if e.Pause().Some? then Some(todo[done].id)
                     else if e.StepLimit? && done == 0 then s.current else None)
    && t.review == (if e.Pause().Some? then Some(PendingReview(todo[done].id, e.Pause().value)) else None)
    && t.nextIteration == s.nextIteration + done + (if e.Quiet() then 0 else 1)
    && t.requests == s.requests + Spent(env, s, todo, n) && t.minute == s.minute + Spent(env, s, todo, n)
    && t.failures == Streak(env, s, todo, n)
    && t.history == s.history + Notes(env, s, todo, done, e)
    && Drafts(t.events) == LogAt(env, s, todo, n) + Closing(s, todo, done, e) && Stamped(env, s.events, t.events)
  }

  /**
   The checkpoints saved from the j-th objective on: for each objective executed one that marks it
   current and one after its result, and one for a stop signal or a lockout pause.
   */
  ghost predicate SavedFrom(env: Env, s: State, todo: seq<Objective>, saves: seq<State>, j: nat, done: nat, e: Ending)
    requires j <= done <= |todo| && (done == |todo| ==> e.Quiet())
    decreases done - j
  {
    if j < done then
      && |saves| >= 2
      && Between(env, s, todo, saves[0], j, Some(todo[j].id)) && saves[0].elapsed == ElapsedBefore(env, s, j)
      && Between(env, s, todo, saves[1], j + 1, None) && saves[1].elapsed == ElapsedBefore(env, s, j + 1)
      && SavedFrom(env, s, todo, saves[2..], j + 1, done, e)
    else if e.AfterResult() then
      && |saves| == 2
      && Between(env, s, todo, saves[0], j, Some(todo[j].id)) && saves[0].elapsed == ElapsedBefore(env, s, j)
      && Ended(env, s, todo, saves[1], done, e) && saves[1].elapsed == ElapsedBefore(env, s, j + 1)
    else if e.Signalled? || e.LockedOut? then
      |saves| == 1 && Ended(env, s, todo, saves[0], done, e) && saves[0].elapsed == ElapsedBefore(env, s, j)
    else saves == []
  }

  // ----- One objective -----

  /** The loop stands before the j-th objective of the run. */
  ghost predicate Reaches(cfg: Config, env: Env, s: State, todo: seq<Objective>, v: State, j: nat, c: Option<Id>) {
    && todo == Ahead(cfg, s) && s.stopped == [] && !s.operatorStop
    && Between(env, s, todo, v, j, c) && v.elapsed == ElapsedBefore(env, s, j)
    && j < |todo|
  }

  /** Appending an event adds its draft under the next stamp and leaves the rest alone. */
  lemma Logs(cfg: Config, env: Env, s: State, d: Draft)
    ensures var t := Appended(cfg, env, s, d);
      && Drafts(t.events) == Drafts(s.events) + [d] && t == s.(events := t.events, lastHash := t.lastHash)
      && forall before :: Stamped(env, before, s.events) ==> Stamped(env, before, t.events)
  {
  }

  lemma BetweenFacts(env: Env, s: State, todo: seq<Objective>, v: State, j: nat, c: Option<Id>)
    requires Between(env, s, todo, v, j, c)
    ensures v.reviewed == s.reviewed && v.status == Running && (j < |todo| ==> v.pending != [])
    ensures j <= |todo| && v.nextIteration == s.nextIteration + j
    ensures v.completed == s.completed + Ids(todo)[..j] && v.pending == Ids(todo)[j..]
  {
  }

  lemma MeetsAttempt(env: Env, s: State, todo: seq<Objective>, v: State, j: nat, c: Option<Id>)
    requires Between(env, s, todo, v, j, c) && j < |todo|
    ensures AttemptAt(env, v, todo[j])
         == Attempt(Reasons(env, s, todo, j), Answer(env, s, todo, j), Cost(env, s, todo, j))
  {
  }

  /** The budget's answer, from the limits. */
  lemma MeetsLimits(cfg: Config, env: Env, s: State, todo: seq<Objective>, v: State, j: nat, c: Option<Id>)
    requires Between(env, s, todo, v, j, c) && j < |todo| && !s.operatorStop
    ensures var d := DenialFor(cfg, env, v, todo[j], s.elapsed);
      && (d.None? <==> forall why :: !Exceeds(cfg, env, s, todo, j, why))
      && (d.Some? ==> FirstExceeded(cfg, env, s, todo, j, d.value))
  {
    hide Drafts, LogAt, Stamped, Spent, Streak;
    var d := DenialFor(cfg, env, v, todo[j], s.elapsed);
    assert !Exceeds(cfg, env, s, todo, j, OperatorStopReason);
    assert Exceeds(cfg, env, s, todo, j, IterationLimit) <==> v.nextIteration - 1 >= cfg.limits.maxIterations;
    if d.Some? {
      assert Exceeds(cfg, env, s, todo, j, d.value);
    }
  }

  lemma HeadGone(ids: seq<Id>, j: nat)
    requires j < |ids|
    ensures Remove(ids[j..], ids[j]) == ids[j + 1..] && ids[..j + 1] == ids[..j] + [ids[j]]
  {
  }

  lemma SignalsReported(cfg: Config, env: Env, s: State, todo: seq<Objective>, v: State, j: nat, c: Option<Id>)
    requires Reaches(cfg, env, s, todo, v, j, c) && todo[j].stopSignals != []
    ensures Ended(env, s, todo, Saved(FuzzingStopped(cfg, env, v, todo[j])), j, Signalled)
    ensures var t := Saved(FuzzingStopped(cfg, env, v, todo[j])); t.elapsed == v.elapsed && t.revision == v.revision + 1
  {
    hide Appended, Drafts, LogAt, Stamped, Spent, Streak, Remove;
    HeadGone(Ids(todo), j);
    var o := todo[j];
    var notes := seq(|o.stopSignals|, i requires 0 <= i < |o.stopSignals| => SignalNote(o.stopSignals[i]));
    var stopped := StopObjective(v, o.id, StoppedByCondition).(history := v.history + notes,
                                                               nextIteration := v.nextIteration + 1);
    Logs(cfg, env, stopped, Draft(CampaignStop, v.nextIteration, Some(o.id), FuzzingSafetyStop,
                                  ConditionStopOutcome, StopConditions(o.stopSignals)));
  }

  lemma LockoutReported(cfg: Config, env: Env, s: State, todo: seq<Objective>, v: State, j: nat, c: Option<Id>)
    requires Reaches(cfg, env, s, todo, v, j, c)
    ensures Ended(env, s, todo, Saved(LockoutPaused(cfg, env, v, todo[j])), j, LockedOut)
    ensures var t := Saved(LockoutPaused(cfg, env, v, todo[j])); t.elapsed == v.elapsed && t.revision == v.revision + 1
  {
    hide Appended, Drafts, LogAt, Stamped, Spent, Streak;
    var o := todo[j];
    var paused := v.(current := Some(o.id), status := Paused, review := Some(PendingReview(o.id, PreExecution)),
                     history := v.history + [LockoutNote(o.id)], nextIteration := v.nextIteration + 1);
    Logs(cfg, env, paused, Draft(CampaignPaused, v.nextIteration, Some(o.id), LockoutPause, PausedOutcome,
                                 Phased(PreExecution)));
  }

  lemma LimitReported(cfg: Config, env: Env, s: State, todo: seq<Objective>, v: State, j: nat, c: Option<Id>,
                      why: StopReason)
    requires Reaches(cfg, env, s, todo, v, j, c)
    ensures Ended(env, s, todo, PreExecutionStopped(cfg, env, v, todo[j], why), j, OverLimit(why))
    ensures PreExecutionStopped(cfg, env, v, todo[j], why).revision == v.revision
  {
    hide Appended, Drafts, LogAt, Stamped, Spent, Streak, Remove;
    HeadGone(Ids(todo), j);
    var o := todo[j];
    var stopped := StopObjective(v, o.id, StoppedByBudget).(history := v.history + [StopReasonNote(why)],
                                                            nextIteration := v.nextIteration + 1);
    Logs(cfg, env, stopped, Draft(CampaignStop, v.nextIteration, Some(o.id), StoppedBy(why),
                                  VerdictOutcome(PolicyStop), StopDetail(why)));
  }

  lemma OneMoreResult(env: Env, s: State, todo: seq<Objective>, j: nat)
    requires j < |todo|
    ensures LogAt(env, s, todo, j + 1) == LogAt(env, s, todo, j) + [ResultDraft(env, s, todo, j)]
  {
    var upTo := n requires 0 <= n <= |todo| =>
      seq(n, k requires 0 <= k < n => ResultDraft(env, s, todo, k));
    assert upTo(j + 1) == upTo(j) + [ResultDraft(env, s, todo, j)];
  }

  /** After the result of the j-th objective is logged and counted. */
  ghost predicate Counted(env: Env, s: State, todo: seq<Objective>, r: State, j: nat)
    requires j < |todo|
  {
    && r.status == Running && r.current == Some(todo[j].id) && r.review.None?
    && r.completed == s.completed + Ids(todo)[..j] && r.pending == Ids(todo)[j..] && r.stopped == s.stopped
    && r.skipped == s.skipped && r.reviewed == s.reviewed && r.operatorStop == s.operatorStop
    && r.nextIteration == s.nextIteration + j + 1
    && r.requests == s.requests + Spent(env, s, todo, j + 1) && r.minute == s.minute + Spent(env, s, todo, j + 1)
    && r.failures == Streak(env, s, todo, j + 1) && r.history == s.history
    && Drafts(r.events) == LogAt(env, s, todo, j + 1) && Stamped(env, s.events, r.events)
  }

  lemma ResultCounted(cfg: Config, env: Env, s: State, todo: seq<Objective>, v: State, j: nat, c: Option<Id>)
    requires Reaches(cfg, env, s, todo, v, j, c)
    ensures var a := AttemptAt(env, v, todo[j]); var r := ResultLogged(cfg, env, Marked(v, todo[j]), todo[j], a);
      Counted(env, s, todo, r, j) && r.revision == v.revision + 1
  {
    hide Appended, Drafts, LogAt, Stamped;
    MeetsAttempt(env, s, todo, v, j, c);
    OneMoreResult(env, s, todo, j);
    var o, a := todo[j], AttemptAt(env, v, todo[j]);
    var charged := Marked(v, o).(requests := v.requests + a.requests, minute := v.minute + a.requests,
                                 failures := if a.Failed() then v.failures + 1 else 0);
    Logs(cfg, env, charged, Draft(ObjectiveResult, v.nextIteration, Some(o.id), GateDecision(a.reasons),
                                  VerdictOutcome(a.verdict), NoDetails));
  }

  /** How an executed objective ends the run, if it does. */
  function AfterExecution(env: Env, s: State, todo: seq<Objective>, j: nat): Ending
    requires j < |todo|
  {
    if Reasons(env, s, todo, j) == [HumanApprovalRequired] then HeldAtGate
    else if Reasons(env, s, todo, j) != [] then Refused
    else AwaitsReview
  }

  lemma DisposalReported(cfg: Config, env: Env, s: State, todo: seq<Objective>, r: State, j: nat, a: Attempt)
    requires j < |todo| && Counted(env, s, todo, r, j)
    requires a == Attempt(Reasons(env, s, todo, j), Answer(env, s, todo, j), Cost(env, s, todo, j))
    ensures var t := Disposed(cfg, env, r, todo[j], a);
      && t.revision == r.revision
      && if a.reasons == [] && a.verdict != ManualReview then Between(env, s, todo, t, j + 1, None)
         else Ended(env, s, todo, t, j, AfterExecution(env, s, todo, j))
  {
    hide Appended, Drafts, LogAt, Stamped, Spent, Streak, Remove;
    HeadGone(Ids(todo), j);
    var o := todo[j];
    var phase := if a.GateOnly() then PreExecution else PostExecution;
    var note := if a.GateOnly() then ApprovalNote(o.id) else ReviewNeededNote(o.id);
    Logs(cfg, env, r.(status := Paused, review := Some(PendingReview(o.id, phase)), history := r.history + [note]),
         Draft(CampaignPaused, r.nextIteration - 1, Some(o.id), NoPolicy, PausedOutcome, Phased(phase)));
  }

  /** The clock and the revision are no part of either description. */
  lemma BetweenTimed(env: Env, s: State, todo: seq<Objective>, v: State, j: nat, c: Option<Id>, elapsed: real)
    requires Between(env, s, todo, v, j, c)
    ensures Between(env, s, todo, Saved(v.(elapsed := elapsed)), j, c)
  {
    hide Drafts, LogAt, Stamped, Spent, Streak;
  }

  lemma EndedTimed(env: Env, s: State, todo: seq<Objective>, t: State, done: nat, e: Ending, elapsed: real)
    requires done <= |todo| && (done == |todo| ==> e.Quiet()) && Ended(env, s, todo, t, done, e)
    ensures Ended(env, s, todo, Saved(t.(elapsed := elapsed)), done, e)
  {
    hide Drafts, LogAt, Stamped, Spent, Streak, Notes, Closing;
  }

  lemma MarkReported(env: Env, s: State, todo: seq<Objective>, v: State, j: nat, c: Option<Id>)
    requires Between(env, s, todo, v, j, c) && j < |todo|
    ensures Between(env, s, todo, Marked(v, todo[j]), j, Some(todo[j].id))
  {
  }

  lemma ExecutionReported(cfg: Config, env: Env, s: State, todo: seq<Objective>, v: State, j: nat, c: Option<Id>)
    requires Reaches(cfg, env, s, todo, v, j, c)
    ensures var t := Executed(cfg, env, v, todo[j], s.elapsed);
      && t.elapsed == ElapsedBefore(env, s, j + 1) && t.revision == v.revision + 2
      && if Reasons(env, s, todo, j) == [] && Answer(env, s, todo, j) != ManualReview
         then Between(env, s, todo, t, j + 1, None)
         else Ended(env, s, todo, t, j, AfterExecution(env, s, todo, j))
  {
    hide Disposed, ResultLogged, Between, Ended, Counted, AttemptAt, Reasons, Answer, Cost, Attempt.Allowed;
    MeetsAttempt(env, s, todo, v, j, c);
    BetweenFacts(env, s, todo, v, j, c);
    ResultCounted(cfg, env, s, todo, v, j, c);
    var a := AttemptAt(env, v, todo[j]);
    var r := ResultLogged(cfg, env, Marked(v, todo[j]), todo[j], a);
    DisposalReported(cfg, env, s, todo, r, j, a);
    if Reasons(env, s, todo, j) == [] && Answer(env, s, todo, j) != ManualReview {
      BetweenTimed(env, s, todo, Disposed(cfg, env, r, todo[j], a), j + 1, None, ElapsedBefore(env, s, j + 1));
    } else {
      EndedTimed(env, s, todo, Disposed(cfg, env, r, todo[j], a), j, AfterExecution(env, s, todo, j),
                 ElapsedBefore(env, s, j + 1));
    }
  }

  // ----- The loop -----

  lemma BegunReported(cfg: Config, env: Env, s: State, todo: seq<Objective>)
    requires s.pending == Ids(todo) && s.review.None?
    ensures var b := Begun(cfg, env, s);
      Between(env, s, todo, b, 0, s.current) && b.elapsed == s.elapsed && b.revision == s.revision + 1
  {
    hide Appended, Drafts, Stamped;
    var started := Draft(CampaignStarted, 0, None, NoPolicy, PlannedOutcome, NoDetails);
    var resumed := Draft(CampaignResumed, 0, None, NoPolicy, RunningOutcome, NoDetails);
    Logs(cfg, env, s, started);
    var s1 := if s.events == [] then Appended(cfg, env, s, started) else s;
    Logs(cfg, env, s1, resumed);
    assert Stamped(env, s.events, s.events) by { NothingLogged(env, s.events); }
  }

  lemma NothingLogged(env: Env, events: seq<Event>)
    ensures Stamped(env, events, events)
  {
  }

  /** The run ends at the j-th objective, in v, for the reason e. */
  ghost predicate EndsHere(cfg: Config, env: Env, s: State, todo: seq<Objective>, p: Progress, j: nat, e: Ending)
    requires j < |todo|
  {
    && !e.Quiet() && HeadEnds(cfg, env, s, todo, j, e)
    && Ended(env, s, todo, p.s, j, e) && SavedFrom(env, s, todo, p.saves, j, j, e)
  }

  /** The j-th objective passes, leaving p. */
  ghost predicate GoesOn(cfg: Config, env: Env, s: State, todo: seq<Objective>, p: Progress, j: nat)
    requires j < |todo|
  {
    && Passes(cfg, env, s, todo, j) && |p.saves| == 2 && p.saves[1] == p.s
    && Between(env, s, todo, p.saves[0], j, Some(todo[j].id)) && p.saves[0].elapsed == ElapsedBefore(env, s, j)
    && Between(env, s, todo, p.s, j + 1, None) && p.s.elapsed == ElapsedBefore(env, s, j + 1)
  }

  lemma EarlyReported(cfg: Config, env: Env, s: State, todo: seq<Objective>, v: State, j: nat, c: Option<Id>)
    returns (e: Ending)
    requires Reaches(cfg, env, s, todo, v, j, c)
    requires !Unobstructed(s, todo[j]) || DenialFor(cfg, env, v, todo[j], s.elapsed).Some?
    ensures var p := Visit(cfg, env, v, todo[j], s.elapsed);
      p.s.status != Running && p.s.revision == v.revision + |p.saves| && EndsHere(cfg, env, s, todo, p, j, e)
  {
    hide FuzzingStopped, LockoutPaused, PreExecutionStopped, DenialFor, Executed, Between, Ended, Saved;
    BetweenFacts(env, s, todo, v, j, c);
    MeetsLimits(cfg, env, s, todo, v, j, c);
    var o := todo[j];
    var denial := DenialFor(cfg, env, v, o, s.elapsed);
    if o.stopSignals != [] {
      SignalsReported(cfg, env, s, todo, v, j, c);
      e := Signalled;
    } else if o.lockoutRisk && o.id !in v.reviewed {
      LockoutReported(cfg, env, s, todo, v, j, c);
      e := LockedOut;
    } else {
      LimitReported(cfg, env, s, todo, v, j, c, denial.value);
      e := OverLimit(denial.value);
    }
    EndedStatus(env, s, todo, Visit(cfg, env, v, o, s.elapsed).s, j, e);
  }

  lemma LateReported(cfg: Config, env: Env, s: State, todo: seq<Objective>, v: State, j: nat, c: Option<Id>)
    returns (e: Ending)
    requires Reaches(cfg, env, s, todo, v, j, c)
    requires Unobstructed(s, todo[j]) && DenialFor(cfg, env, v, todo[j], s.elapsed).None?
    ensures var p := Visit(cfg, env, v, todo[j], s.elapsed);
      && p.s.revision == v.revision + |p.saves|
      && if p.s.status == Running then GoesOn(cfg, env, s, todo, p, j) else EndsHere(cfg, env, s, todo, p, j, e)
  {
    hide DenialFor, Executed, Between, Ended, SavedFrom;
    BetweenFacts(env, s, todo, v, j, c);
    MeetsLimits(cfg, env, s, todo, v, j, c);
    MarkReported(env, s, todo, v, j, c);
    ExecutionReported(cfg, env, s, todo, v, j, c);
    e := AfterExecution(env, s, todo, j);
    EndedStatus(env, s, todo, Executed(cfg, env, v, todo[j], s.elapsed), j, e);
    SavesAfterResult(env, s, todo, [Marked(v, todo[j]), Executed(cfg, env, v, todo[j], s.elapsed)], j, e);
  }

  lemma SavesAfterResult(env: Env, s: State, todo: seq<Objective>, saves: seq<State>, j: nat, e: Ending)
    requires j < |todo| && |saves| == 2 && e.AfterResult()
    ensures SavedFrom(env, s, todo, saves, j, j, e) <==>
      && Between(env, s, todo, saves[0], j, Some(todo[j].id)) && saves[0].elapsed == ElapsedBefore(env, s, j)
      && Ended(env, s, todo, saves[1], j, e) && saves[1].elapsed == ElapsedBefore(env, s, j + 1)
  {
    hide Between, Ended, ElapsedBefore;
  }

  lemma EndedStatus(env: Env, s: State, todo: seq<Objective>, t: State, j: nat, e: Ending)
    requires j < |todo| && !e.Quiet()
    ensures Ended(env, s, todo, t, j, e) ==> t.status != Running
    ensures Between(env, s, todo, t, j + 1, None) ==> t.status == Running
  {
  }

  /** One pass of the loop: the objective passes, or the run ends at it. */
  lemma VisitReported(cfg: Config, env: Env, s: State, todo: seq<Objective>, v: State, j: nat, c: Option<Id>)
    returns (e: Ending)
    requires Reaches(cfg, env, s, todo, v, j, c)
    ensures var p := Visit(cfg, env, v, todo[j], s.elapsed);
      && p.s.revision == v.revision + |p.saves|
      && if p.s.status == Running then GoesOn(cfg, env, s, todo, p, j) else EndsHere(cfg, env, s, todo, p, j, e)
  {
    hide Visit, GoesOn, EndsHere, Between;
    if !Unobstructed(s, todo[j]) || DenialFor(cfg, env, v, todo[j], s.elapsed).Some? {
      e := EarlyReported(cfg, env, s, todo, v, j, c);
    } else {
      e := LateReported(cfg, env, s, todo, v, j, c);
    }
  }

  /** The loop as it is left: still running, or ended at an objective. */
  ghost predicate LoopLeft(env: Env, s: State, todo: seq<Objective>, v: State, done: nat, e: Ending)
    requires done <= |todo| && (done == |todo| ==> e.Quiet())
  {
    if e.Quiet() then Between(env, s, todo, v, done, if done == 0 then s.current else None)
    else Ended(env, s, todo, v, done, e)
  }

  function SaveCount(completed: nat, e: Ending): nat {
    2 * completed + if e.AfterResult() then 2 else if e.Signalled? || e.LockedOut? then 1 else 0
  }

  /** A run may start from s, with this much of the schedule ahead. */
  ghost predicate Starts(cfg: Config, s: State, todo: seq<Objective>) {
    && |s.completed| <= |cfg.order| && todo == Ahead(cfg, s) && s.pending == Ids(todo)
    && s.stopped == [] && !s.operatorStop && s.review.None?
  }

  lemma HeadAhead(cfg: Config, env: Env, s: State, todo: seq<Objective>, v: State, j: nat, c: Option<Id>)
    requires Starts(cfg, s, todo) && Between(env, s, todo, v, j, c)
    ensures v.pending == [] <==> j == |todo|
    ensures j < |todo| ==> |v.completed| < |cfg.order| && HeadObjective(cfg, v) == todo[j]
  {
    hide Drafts, LogAt, Stamped, Spent, Streak;
    assert |Ids(todo)| == |todo|;
  }

  lemma {:induction false} LoopReported(cfg: Config, env: Env, s: State, todo: seq<Objective>, v: State, j: nat,
                                        c: Option<Id>) returns (done: nat, e: Ending)
    requires ValidConfig(cfg) && ValidEnv(env) && Checkpointed(cfg, v) && Starts(cfg, s, todo)
    requires Between(env, s, todo, v, j, c) && v.elapsed == ElapsedBefore(env, s, j)
    requires c == (if j == 0 then s.current else None) && (env.maxSteps.Some? ==> j <= env.maxSteps.value)
    ensures j <= done && EndsBy(cfg, env, s, todo, done, e)
    ensures forall i :: j <= i < done ==> Passes(cfg, env, s, todo, i)
    ensures var p := Loop(cfg, env, v, 0, j, s.elapsed);
      && LoopLeft(env, s, todo, p.s, done, e) && SavedFrom(env, s, todo, p.saves, j, done, e)
      && |p.saves| == SaveCount(done - j, e) && p.s.revision == v.revision + |p.saves|
    decreases |todo| - j
  {
    hide ValidConfig, ValidEnv, Inv, Visit, Loop, Between, Ended, Passes, HeadEnds, ElapsedBefore;
    BetweenFacts(env, s, todo, v, j, c);
    HeadAhead(cfg, env, s, todo, v, j, c);
    LoopAtHead(cfg, env, v, j, s.elapsed);
    done := j;
    if j == |todo| {
      e := Finish;
    } else if OutOfSteps(env, j) {
      e := StepLimit;
    } else {
      e := VisitReported(cfg, env, s, todo, v, j, c);
      var p := Visit(cfg, env, v, todo[j], s.elapsed);
      if p.s.status == Running {
        VisitKeeps(cfg, env, v, todo[j], s.elapsed);
        done, e := LoopReported(cfg, env, s, todo, p.s, j + 1, None);
        var rest := Loop(cfg, env, p.s, 0, j + 1, s.elapsed);
        assert (p.saves + rest.saves)[2..] == rest.saves;
      } else {
        SavesEnd(env, s, todo, p.saves, j, e);
      }
    }
  }

  lemma {:induction false} SavesEnd(env: Env, s: State, todo: seq<Objective>, saves: seq<State>, j: nat, e: Ending)
    requires j < |todo| && SavedFrom(env, s, todo, saves, j, j, e)
    ensures |saves| == SaveCount(0, e)
  {
  }

  // ----- The run -----

  lemma FinishReported(cfg: Config, env: Env, s: State, todo: seq<Objective>, v: State, done: nat, e: Ending)
    requires done <= |todo| && (e.Finish? <==> done == |todo|) && (e.StepLimit? ==> done < |todo|)
    requires LoopLeft(env, s, todo, v, done, e)
    ensures var t := Finished(cfg, env, v, s.elapsed);
      && Ended(env, s, todo, t, done, e)
      && t.elapsed == s.elapsed + (env.ended - env.started) && t.revision == v.revision + 1
  {
    hide Appended, Drafts, Stamped, LogAt, Spent, Streak, Ids;
    if !e.Quiet() {
      hide Between, Ended, Closing, Notes;
      EndedStatus(env, s, todo, v, done, e);
      EndedTimed(env, s, todo, v, done, e, s.elapsed + (env.ended - env.started));
      return;
    }
    var finished := v.(elapsed := s.elapsed + (env.ended - env.started), status := Completed, current := None);
    Logs(cfg, env, finished,
         Draft(CampaignFinished, 0, None, NoPolicy, CompletedOutcome, IterationCount(v.nextIteration - 1)));
  }

  lemma AllAhead(cfg: Config, s: State)
    requires Inv(cfg, s) && Executable(s.status)
    ensures Starts(cfg, s, Ahead(cfg, s))
  {
    hide Metered, Recorded;
    assert s.completed + s.pending == Ids(cfg.order);
    assert |Ids(cfg.order)| == |cfg.order|;
    assert s.pending == Ids(cfg.order)[|s.completed|..] == Ids(Ahead(cfg, s));
  }

  /**
   An accepted run from s, in full: the objectives from the head on are executed and completed one by
   one, each admitted by every limit as the run has used it up by then, until the first that is not;
   why the run ends there; and, field by field, every checkpoint saved on the way and the one left.
   */
  lemma RunReported(cfg: Config, env: Env, s: State) returns (done: nat, e: Ending)
    requires ValidConfig(cfg) && ValidEnv(env) && Inv(cfg, s) && Executable(s.status)
    ensures s.pending == Ids(Ahead(cfg, s)) && EndsBy(cfg, env, s, Ahead(cfg, s), done, e)
    ensures forall i :: 0 <= i < done ==> Passes(cfg, env, s, Ahead(cfg, s), i)
    ensures var t, saves := RunResult(cfg, env, s), Run(cfg, env, s);
      && Ended(env, s, Ahead(cfg, s), t, done, e) && t.elapsed == s.elapsed + (env.ended - env.started)
      && |saves| == 2 + SaveCount(done, e) && t.revision == s.revision + |saves|
      && Between(env, s, Ahead(cfg, s), saves[0], 0, s.current) && saves[0].elapsed == s.elapsed
      && SavedFrom(env, s, Ahead(cfg, s), saves[1..|saves| - 1], 0, done, e)
  {
    hide ValidConfig, ValidEnv, Inv, Begun, Loop, Finished, Between, Ended, SavedFrom, Passes, EndsBy;
    var todo := Ahead(cfg, s);
    AllAhead(cfg, s);
    BegunKeeps(cfg, env, s);
    BegunReported(cfg, env, s, todo);
    var b := Begun(cfg, env, s);
    done, e := LoopReported(cfg, env, s, todo, b, 0, s.current);
    var p := Loop(cfg, env, b, 0, 0, s.elapsed);
    EndedBy(cfg, env, s, todo, done, e);
    FinishReported(cfg, env, s, todo, p.s, done, e);
    assert Run(cfg, env, s)[1..|Run(cfg, env, s)| - 1] == p.saves;
  }

  lemma EndedBy(cfg: Config, env: Env, s: State, todo: seq<Objective>, done: nat, e: Ending)
    requires EndsBy(cfg, env, s, todo, done, e)
    ensures done <= |todo| && (e.Finish? <==> done == |todo|) && (done == |todo| ==> e.Quiet())
  {
  }

  /** A fresh campaign starts from nothing: the schedule pending, every counter at its start. */
  lemma FreshStart(cfg: Config)
    ensures var s := InitialState(cfg);
      && s.status == Planned && s.pending == Ids(cfg.order)
      && s.completed == s.stopped == s.skipped == s.reviewed == []
      && s.current.None? && s.review.None? && !s.operatorStop
      && s.nextIteration == 1 && s.revision == s.requests == s.minute == s.failures == 0 && s.elapsed == 0.0
      && s.history == [] && s.events == [] && s.lastHash.None? && Ahead(cfg, s) == cfg.order
  {
  }
}
