/** What one run executes: the pending objectives from the head on, one iteration each. */
module RunOrder {
  import opened Basics
  import opened Objectives
  import opened EventLog
  import opened CampaignState
  import opened CampaignSpec
  import opened CampaignInvariant
  import opened CampaignSteps
  import opened CampaignRuns

  /** The (iteration, objective) pairs of the objective_result events, in log order. */
  function Results(events: seq<Event>): seq<(int, Option<Id>)> {
    if events == [] then []
    else
      var d := events[|events| - 1].body.draft;
      Results(events[..|events| - 1]) + if d.kind == ObjectiveResult then [(d.iteration, d.objective)] else []
  }

  lemma ResultsSnoc(events: seq<Event>, e: Event)
    ensures var d := e.body.draft;
      Results(events + [e]) == Results(events) + if d.kind == ObjectiveResult then [(d.iteration, d.objective)] else []
  {
    assert (events + [e])[..|events|] == events;
  }

  /** The first n of these objectives under consecutive iterations. */
  function Consecutive(from: int, ids: seq<Id>, n: nat): seq<(int, Option<Id>)>
    requires n <= |ids|
  {
    seq(n, j requires 0 <= j < n => (from + j, Some(ids[j])))
  }

  lemma AppendedResults(cfg: Config, env: Env, s: State, d: Draft)
    ensures Results(Appended(cfg, env, s, d).events) ==
      Results(s.events) + if d.kind == ObjectiveResult then [(d.iteration, d.objective)] else []
  {
    ResultsSnoc(s.events, Sealed(cfg.hash, s.events, env.stamp(|s.events| + 1), d));
  }

  lemma ExecutedResults(cfg: Config, env: Env, s: State, o: Objective, base: real)
    ensures Results(Executed(cfg, env, s, o, base).events) == Results(s.events) + [(s.nextIteration, Some(o.id))]
    ensures Executed(cfg, env, s, o, base).nextIteration == s.nextIteration + 1
  {
    hide Sealed, Results;
    var a := AttemptAt(env, s, o);
    var m := Marked(s, o);
    var charged := m.(requests := s.requests + a.requests, minute := s.minute + a.requests,
                      failures := if a.Failed() then s.failures + 1 else 0);
    AppendedResults(cfg, env, charged, Draft(ObjectiveResult, s.nextIteration, Some(o.id), GateDecision(a.reasons),
                                             VerdictOutcome(a.verdict), NoDetails));
    var r := ResultLogged(cfg, env, m, o, a);
    AppendedResults(cfg, env, r, Draft(CampaignPaused, s.nextIteration, Some(o.id), NoPolicy, PausedOutcome,
                                       Phased(PreExecution)));
    AppendedResults(cfg, env, r, Draft(CampaignPaused, s.nextIteration, Some(o.id), NoPolicy, PausedOutcome,
                                       Phased(PostExecution)));
  }

  /** The loop body lets this objective through to its execution. */
  predicate LetThrough(cfg: Config, env: Env, s: State, o: Objective, base: real) {
    o.stopSignals == [] && Cleared(s, o) && DenialFor(cfg, env, s, o, base).None?
  }

  /** The loop, so many steps in, executes the head of pending next. */
  predicate ExecutesNext(cfg: Config, env: Env, s: State, steps: nat, base: real) {
    && s.pending != [] && |s.completed| < |cfg.order| && !OutOfSteps(env, steps)
    && LetThrough(cfg, env, s, HeadObjective(cfg, s), base)
  }

  /**
   The same, by the numbers alone: a step is left, the head signals no stop and has been reviewed if
   it must be, the operator asked for no stop, and none of the five limits is reached.
   */
  lemma ExecutesNextExactly(cfg: Config, env: Env, s: State, steps: nat, base: real)
    requires |s.pending| > 0 ==> |s.completed| < |cfg.order|
    ensures ExecutesNext(cfg, env, s, steps, base) <==>
      && s.pending != [] && (env.maxSteps.Some? ==> steps < env.maxSteps.value) && !s.operatorStop
      && var o := cfg.order[|s.completed|];
      && o.stopSignals == [] && (o.lockoutRisk ==> o.id in s.reviewed)
      && s.nextIteration - 1 < cfg.limits.maxIterations
      && base + (env.clock(s.nextIteration, BudgetCheck) - env.started) < cfg.limits.maxRuntimeSeconds as real
      && s.requests + o.requestBudget <= cfg.limits.campaignMaxRequests
      && s.requests + o.requestBudget <= cfg.limits.scopeMaxRequests
      && s.minute + o.requestBudget <= cfg.limits.requestsPerMinute
      && s.failures < cfg.limits.maxFailures
  {
  }

  /** Under each of these iterations the clock, read for the budget check, was short of the runtime limit. */
  ghost predicate InTime(cfg: Config, env: Env, from: int, n: nat, base: real) {
    forall i :: from <= i < from + n ==>
      base + (env.clock(i, BudgetCheck) - env.started) < cfg.limits.maxRuntimeSeconds as real
  }

  lemma ExecutedInTime(cfg: Config, env: Env, s: State, o: Objective, base: real)
    requires LetThrough(cfg, env, s, o, base)
    ensures InTime(cfg, env, s.nextIteration, 1, base)
  {
  }

  lemma VisitResults(cfg: Config, env: Env, s: State, o: Objective, base: real) returns (n: nat)
    requires s.pending != [] && o.id == s.pending[0]
    ensures n == if LetThrough(cfg, env, s, o, base) then 1 else 0
    ensures Results(Visit(cfg, env, s, o, base).s.events)
         == Results(s.events) + Consecutive(s.nextIteration, s.pending, n)
    ensures Visit(cfg, env, s, o, base).s.status == Running ==>
      n == 1 && Visit(cfg, env, s, o, base).s.nextIteration == s.nextIteration + 1
  {
    hide Sealed, Results, Executed;
    n := 0;
    if o.stopSignals != [] {
      AppendedResults(cfg, env, s, Draft(CampaignStop, s.nextIteration, Some(o.id), FuzzingSafetyStop,
                                         ConditionStopOutcome, StopConditions(o.stopSignals)));
    } else if o.lockoutRisk && o.id !in s.reviewed {
      AppendedResults(cfg, env, s, Draft(CampaignPaused, s.nextIteration, Some(o.id), LockoutPause,
                                         PausedOutcome, Phased(PreExecution)));
    } else {
      var denial := DenialFor(cfg, env, s, o, base);
      if denial.Some? {
        AppendedResults(cfg, env, s, Draft(CampaignStop, s.nextIteration, Some(o.id), StoppedBy(denial.value),
                                           VerdictOutcome(PolicyStop), StopDetail(denial.value)));
      } else {
        ExecutedResults(cfg, env, s, o, base);
        n := 1;
      }
    }
  }

  lemma ConsecutiveJoins(from: int, ids: seq<Id>, n: nat)
    requires ids != [] && n <= |ids| - 1
    ensures Consecutive(from, ids, 1) + Consecutive(from + 1, ids[1..], n) == Consecutive(from, ids, n + 1)
  {
  }

  lemma NoTimePassed(cfg: Config, env: Env, from: int, base: real)
    ensures InTime(cfg, env, from, 0, base)
  {
  }

  lemma TimeJoins(cfg: Config, env: Env, from: int, n: nat, base: real)
    requires InTime(cfg, env, from, 1, base) && InTime(cfg, env, from + 1, n, base)
    ensures InTime(cfg, env, from, n + 1, base)
  {
  }

  /**
   How a stretch of the loop from s to p ends, n results and `done` completions later: only the
   last objective executed can be left uncompleted, and it goes on as long as it can.
   */
  ghost predicate EndsAfter(env: Env, s: State, p: State, steps: nat, n: nat, done: nat) {
    && done <= n <= done + 1 && n <= |s.pending|
    && p.completed == s.completed + s.pending[..done]
    && (p.status == Running ==> n == done && (n == |s.pending| || env.maxSteps == Some(steps + n)))
    && (p.status != Running ==> done < |s.pending|)
    && (p.status == StoppedByPolicy ==> n == done + 1)
    && (p.status in {StoppedByBudget, StoppedByCondition} ==> n == done)
    && (env.maxSteps.Some? ==> steps + n <= env.maxSteps.value)
  }

  lemma NothingDone(env: Env, s: State, steps: nat)
    requires s.status == Running && (env.maxSteps.Some? ==> steps <= env.maxSteps.value)
    requires s.pending == [] || OutOfSteps(env, steps)
    ensures EndsAfter(env, s, s, steps, 0, 0)
  {
  }

  /** A pass that ends the loop. */
  lemma VisitEnds(cfg: Config, env: Env, s: State, o: Objective, base: real, steps: nat)
    requires s.pending != [] && !OutOfSteps(env, steps) && s.status == Running && !s.operatorStop
    ensures var v := Visit(cfg, env, s, o, base).s;
      v.status != Running ==>
        EndsAfter(env, s, v, steps, if LetThrough(cfg, env, s, o, base) then 1 else 0, 0)
  {
    hide Executed, FuzzingStopped, LockoutPaused, PreExecutionStopped, Denial;
    ExecutionEnds(cfg, env, s, o, base);
    EarlyEnds(cfg, env, s, o);
  }

  lemma ExecutionEnds(cfg: Config, env: Env, s: State, o: Objective, base: real)
    ensures var t := Executed(cfg, env, s, o, base);
      t.status != Running ==> t.completed == s.completed && t.status in {Paused, StoppedByPolicy}
  {
    hide Sealed, Remove, LastHash;
    var r := ResultLogged(cfg, env, Marked(s, o), o, AttemptAt(env, s, o));
    assert r.completed == s.completed;
  }

  lemma EndsJoin(env: Env, s: State, v: State, p: State, steps: nat, n: nat, done: nat)
    requires s.pending != [] && v.pending == s.pending[1..] && v.completed == s.completed + [s.pending[0]]
    requires EndsAfter(env, v, p, steps + 1, n, done)
    ensures EndsAfter(env, s, p, steps, n + 1, done + 1)
  {
    assert s.pending[..done + 1] == [s.pending[0]] + v.pending[..done];
  }

  lemma {:induction false} LoopResults(cfg: Config, env: Env, s: State, k: nat, steps: nat, base: real)
    returns (n: nat, done: nat)
    requires ValidConfig(cfg) && ValidEnv(env) && Checkpointed(cfg, s) && s.status == Running
    requires k <= |s.completed| && (env.maxSteps.Some? ==> steps <= env.maxSteps.value)
    ensures EndsAfter(env, s, Loop(cfg, env, s, k, steps, base).s, steps, n, done)
    ensures n > 0 <==> ExecutesNext(cfg, env, s, steps, base)
    ensures Results(Loop(cfg, env, s, k, steps,
                         base).s.events) == Results(s.events) + Consecutive(s.nextIteration, s.pending, n)
    ensures env.live ==> done == 0
    ensures InTime(cfg, env, s.nextIteration, n, base)
    decreases |cfg.order| - k
  {
    hide Inv, Visit, ValidConfig, ValidEnv, Results, Consecutive, EndsAfter, LetThrough, Dispositions, InTime;
    n, done := 0, 0;
    NoTimePassed(cfg, env, s.nextIteration, base);
    NothingConsecutive(s);
    RunningFacts(cfg, s);
    AllVisited(cfg, s, k);
    if k < |cfg.order| {
      PendingPosition(cfg, s, k);
      if cfg.order[k].id !in s.pending {
        n, done := LoopResults(cfg, env, s, k + 1, steps, base);
      } else if OutOfSteps(env, steps) {
        NothingDone(env, s, steps);
      } else {
        HeadFacts(cfg, s);
        var o := cfg.order[k];
        VisitKeeps(cfg, env, s, o, base);
        if env.live {
          assert ExecutorRespects(env, o, s.nextIteration) by { EnvRespects(env, o, s.nextIteration); }
          LiveVisit(cfg, env, s, o, base);
        }
        n := VisitResults(cfg, env, s, o, base);
        VisitEnds(cfg, env, s, o, base, steps);
        if n == 1 {
          ExecutedInTime(cfg, env, s, o, base);
        }
        var v := Visit(cfg, env, s, o, base);
        if v.s.status == Running {
          var m, more := LoopResults(cfg, env, v.s, k + 1, steps + 1, base);
          EndsAtMost(env, v.s, Loop(cfg, env, v.s, k + 1, steps + 1, base).s, steps + 1, m, more);
          ConsecutiveJoins(s.nextIteration, s.pending, m);
          TimeJoins(cfg, env, s.nextIteration, m, base);
          EndsJoin(env, s, v.s, Loop(cfg, env, v.s, k + 1, steps + 1, base).s, steps, m, more);
          n, done := m + 1, more + 1;
        }
      }
    } else {
      NothingDone(env, s, steps);
    }
  }

  lemma EndsAtMost(env: Env, s: State, p: State, steps: nat, n: nat, done: nat)
    requires EndsAfter(env, s, p, steps, n, done)
    ensures n <= |s.pending|
  {
  }

  lemma EnvRespects(env: Env, o: Objective, i: int)
    requires ValidEnv(env)
    ensures ExecutorRespects(env, o, i)
  {
  }

  /** Past the end of the schedule nothing is pending; a pending position at or before the head is the head. */
  lemma AllVisited(cfg: Config, s: State, k: nat)
    requires ValidConfig(cfg) && Dispositions(cfg, s) && s.stopped == [] && k <= |s.completed|
    ensures k >= |cfg.order| ==> s.pending == []
    ensures |s.completed| <= |cfg.order|
    ensures k < |cfg.order| && cfg.order[k].id in s.pending ==> s.pending != [] && k == |s.completed|
  {
    assert |s.completed + s.stopped + s.pending| == |Ids(cfg.order)|;
    if k < |cfg.order| {
      PendingPosition(cfg, s, k);
    }
  }

  lemma NothingConsecutive(s: State)
    ensures Results(s.events) + Consecutive(s.nextIteration, s.pending, 0) == Results(s.events)
  {
  }

  /** A live pass never completes its objective: it pauses for review or stops. */
  lemma LiveVisit(cfg: Config, env: Env, s: State, o: Objective, base: real)
    requires ExecutorRespects(env, o, s.nextIteration) && s.status == Running && env.live
    ensures Visit(cfg, env, s, o, base).s.status != Running && Visit(cfg, env, s, o, base).s.completed == s.completed
  {
    hide Executed, FuzzingStopped, LockoutPaused, PreExecutionStopped, Denial;
    LiveExecution(cfg, env, s, o, base);
    EarlyEnds(cfg, env, s, o);
  }

  lemma LiveExecution(cfg: Config, env: Env, s: State, o: Objective, base: real)
    requires ExecutorRespects(env, o, s.nextIteration) && env.live
    ensures Executed(cfg, env, s, o, base).status != Running && Executed(cfg, env, s, o, base).completed == s.completed
  {
    hide Sealed, Remove, LastHash;
    var a := AttemptAt(env, s, o);
    assert a.reasons == [] ==> a.verdict == ManualReview;
    var r := ResultLogged(cfg, env, Marked(s, o), o, a);
    assert r.completed == s.completed;
  }

  /** The three ways a pass ends before execution. */
  lemma EarlyEnds(cfg: Config, env: Env, s: State, o: Objective)
    ensures Saved(FuzzingStopped(cfg, env, s, o)).status == StoppedByCondition
    ensures FuzzingStopped(cfg, env, s, o).completed == s.completed
    ensures Saved(LockoutPaused(cfg, env, s, o)).status == Paused
    ensures LockoutPaused(cfg, env, s, o).completed == s.completed
    ensures forall why :: var t := PreExecutionStopped(cfg, env, s, o, why);
      t.status in {StoppedByOperator, StoppedByBudget} && t.completed == s.completed
  {
    hide Sealed, Remove, LastHash;
  }

  lemma BegunResults(cfg: Config, env: Env, s: State)
    ensures Results(Begun(cfg, env, s).events) == Results(s.events)
    ensures Begun(cfg, env, s).nextIteration == s.nextIteration && Begun(cfg, env, s).completed == s.completed
  {
    hide Sealed, Results, LastHash;
    var started := Draft(CampaignStarted, 0, None, NoPolicy, PlannedOutcome, NoDetails);
    AppendedResults(cfg, env, s, started);
    var s1 := if s.events == [] then Appended(cfg, env, s, started) else s;
    AppendedResults(cfg, env, s1, Draft(CampaignResumed, 0, None, NoPolicy, RunningOutcome, NoDetails));
  }

  /** Opening a run changes nothing the loop decides by. */
  lemma BegunDecides(cfg: Config, env: Env, s: State)
    ensures ExecutesNext(cfg, env, Begun(cfg, env, s), 0, s.elapsed) <==> ExecutesNext(cfg, env, s, 0, s.elapsed)
  {
    hide Sealed, LastHash, Denial;
  }

  lemma FinishedResults(cfg: Config, env: Env, s: State, base: real)
    ensures Results(Finished(cfg, env, s, base).events) == Results(s.events)
    ensures Finished(cfg, env, s, base).completed == s.completed
  {
    hide Sealed, Results, LastHash;
    AppendedResults(cfg, env, s.(elapsed := base + (env.ended - env.started), status := Completed, current := None),
                    Draft(CampaignFinished, 0, None, NoPolicy, CompletedOutcome, IterationCount(s.nextIteration - 1)));
  }

  /** How a whole run from s ends in t. */
  ghost predicate RunEndsAfter(env: Env, s: State, t: State, n: nat, done: nat) {
    && done <= n <= done + 1 && n <= |s.pending| && t.completed == s.completed + s.pending[..done]
    && (t.status == Completed ==> n == done == |s.pending|)
    && (t.status == Running ==> n == done < |s.pending| && env.maxSteps == Some(n))
    && (t.status !in {Completed, Running} ==> done < |s.pending|)
    && (t.status == StoppedByPolicy ==> n == done + 1)
    && (t.status in {StoppedByBudget, StoppedByCondition} ==> n == done)
    && (env.maxSteps.Some? ==> n <= env.maxSteps.value)
    && (env.live ==> done == 0)
  }

  /**
   A run logs results for exactly the first n pending objectives, in schedule order, under the
   iterations that follow the checkpoint's.  It executes the head if and only if its steps, the
   head's signals, its review and the five limits let it, each result within the runtime limit, and
   stops only at a step limit, an objective that is paused or stopped, or the end of the schedule.
   A live run completes nothing.
   */
  lemma RunExecutesInOrder(cfg: Config, env: Env, s: State) returns (n: nat, done: nat)
    requires ValidConfig(cfg) && ValidEnv(env) && Inv(cfg, s) && Executable(s.status)
    ensures RunEndsAfter(env, s, RunResult(cfg, env, s), n, done)
    ensures |s.pending| > 0 ==> |s.completed| < |cfg.order|
    ensures n > 0 <==> ExecutesNext(cfg, env, s, 0, s.elapsed)
    ensures n > 0 <==>
      && s.pending != [] && env.maxSteps != Some(0)
      && var o := cfg.order[|s.completed|];
      && o.stopSignals == [] && (o.lockoutRisk ==> o.id in s.reviewed)
      && s.nextIteration - 1 < cfg.limits.maxIterations
      && (s.elapsed + (env.clock(s.nextIteration, BudgetCheck) - env.started)
          < cfg.limits.maxRuntimeSeconds as real)
      && s.requests + o.requestBudget <= cfg.limits.campaignMaxRequests
      && s.requests + o.requestBudget <= cfg.limits.scopeMaxRequests
      && s.minute + o.requestBudget <= cfg.limits.requestsPerMinute
      && s.failures < cfg.limits.maxFailures
    ensures forall i :: s.nextIteration <= i < s.nextIteration + n ==>
      s.elapsed + (env.clock(i, BudgetCheck) - env.started) < cfg.limits.maxRuntimeSeconds as real
    ensures Results(RunResult(cfg, env, s).events) == Results(s.events) + Consecutive(s.nextIteration, s.pending, n)
  {
    hide Inv, Begun, Loop, Finished, ValidConfig, ValidEnv, Results, Consecutive, ExecutesNext, Dispositions;
    RunningFacts(cfg, s);
    AheadFits(cfg, s);
    ExecutesNextExactly(cfg, env, s, 0, s.elapsed);
    BegunKeeps(cfg, env, s);
    var b := Begun(cfg, env, s);
    RunningFacts(cfg, b);
    n, done := LoopResults(cfg, env, b, 0, 0, b.elapsed);
    BegunResults(cfg, env, s);
    BegunDecides(cfg, env, s);
    LoopKeeps(cfg, env, b, 0, 0, b.elapsed);
    var p := Loop(cfg, env, b, 0, 0, b.elapsed).s;
    FinishedResults(cfg, env, p, b.elapsed);
    FinishedKeeps(cfg, env, p, b.elapsed);
    WhenRunning(cfg, b, p, done);
  }

  lemma AheadFits(cfg: Config, s: State)
    requires Dispositions(cfg, s)
    ensures |s.pending| > 0 ==> |s.completed| < |cfg.order|
  {
    assert |s.completed + s.stopped + s.pending| == |Ids(cfg.order)|;
  }

  /** A running state after so many completions: pending is what is left. */
  lemma WhenRunning(cfg: Config, s: State, p: State, done: nat)
    requires Inv(cfg, s) && Inv(cfg, p) && s.status == Running && done <= |s.pending|
    requires p.completed == s.completed + s.pending[..done]
    ensures p.status == Running ==> (p.pending == [] <==> done == |s.pending|)
  {
    hide Metered, Recorded, ReviewedShape;
    if p.status == Running {
      assert |s.completed + s.stopped + s.pending| == |Ids(cfg.order)| == |p.completed + p.stopped + p.pending|;
    }
  }
}
