/**
 Repeating run_campaign one objective at a time gives what one unbounded call gives, although
 each call rebuilds its budget and its elapsed time from the checkpoint.
 */
module StepRefinement {
  import opened Basics
  import opened Objectives
  import opened EventLog
  import opened CampaignState
  import opened CampaignSpec
  import opened CampaignInvariant
  import opened CampaignSteps
  import opened CampaignRuns

  /** Everything in an event but its stamp and the hashes. */
  function Drafts(events: seq<Event>): (ds: seq<Draft>)
    ensures |ds| == |events| && forall i :: 0 <= i < |ds| ==> ds[i] == events[i].body.draft
  {
    seq(|events|, i requires 0 <= i < |events| => events[i].body.draft)
  }

  /** Equal up to revision, elapsed time, stamps and hashes. */
  ghost predicate Alike(a: State, b: State) {
    && a.status == b.status && a.pending == b.pending && a.completed == b.completed && a.stopped == b.stopped
    && a.skipped == b.skipped && a.reviewed == b.reviewed && a.current == b.current && a.review == b.review
    && a.operatorStop == b.operatorStop && a.nextIteration == b.nextIteration
    && a.requests == b.requests && a.minute == b.minute && a.failures == b.failures
    && a.history == b.history && Drafts(a.events) == Drafts(b.events)
  }

  /** Two invocations with the same mode, gate, executor and clock. */
  ghost predicate SameOracles(a: Env, b: Env) {
    a.live == b.live && a.gate == b.gate && a.executor == b.executor && a.clock == b.clock
  }

  // ----- Each building block respects likeness -----

  lemma AppendedAlike(cfg: Config, ea: Env, eb: Env, a: State, b: State, d: Draft)
    requires Alike(a, b)
    ensures Alike(Appended(cfg, ea, a, d), Appended(cfg, eb, b, d))
  {
    assert Drafts(Appended(cfg, ea, a, d).events) == Drafts(a.events) + [d];
    assert Drafts(Appended(cfg, eb, b, d).events) == Drafts(b.events) + [d];
  }

  /** Both clocks show the same elapsed time at every reading. */
  ghost predicate Aligned(ea: Env, baseA: real, eb: Env, baseB: real) {
    baseA - ea.started == baseB - eb.started
  }

  lemma ExecutedAlike(cfg: Config, ea: Env, eb: Env, a: State, b: State, o: Objective, baseA: real, baseB: real)
    requires Alike(a, b) && SameOracles(ea, eb)
    ensures Alike(Executed(cfg, ea, a, o, baseA), Executed(cfg, eb, b, o, baseB))
  {
    hide Appended, Drafts;
    var t := AttemptAt(ea, a, o);
    var ma, mb := Marked(a, o), Marked(b, o);
    var da := Draft(ObjectiveResult, a.nextIteration, Some(o.id), GateDecision(t.reasons), VerdictOutcome(t.verdict),
                    NoDetails);
    var charged := Charged(CountersOf(a), t.requests, t.Failed());
    AppendedAlike(cfg, ea, eb,
                  ma.(requests := a.requests + t.requests, minute := charged.minute, failures := charged.failures),
                  mb.(requests := b.requests + t.requests, minute := charged.minute, failures := charged.failures), da);
    var ra, rb := ResultLogged(cfg, ea, ma, o, t), ResultLogged(cfg, eb, mb, o, t);
    assert Alike(ra, rb);
    DisposedAlike(cfg, ea, eb, ra, rb, o, t);
  }

  lemma DisposedAlike(cfg: Config, ea: Env, eb: Env, a: State, b: State, o: Objective, t: Attempt)
    requires Alike(a, b)
    ensures Alike(Disposed(cfg, ea, a, o, t), Disposed(cfg, eb, b, o, t))
  {
    hide Appended, Drafts;
    if t.GateOnly() {
      PausedAlike(cfg, ea, eb, a, b, o, PreExecution, ApprovalNote(o.id));
    } else if t.Allowed() && t.verdict == ManualReview {
      PausedAlike(cfg, ea, eb, a, b, o, PostExecution, ReviewNeededNote(o.id));
    }
  }

  lemma PausedAlike(cfg: Config, ea: Env, eb: Env, a: State, b: State, o: Objective, phase: Phase, note: StopNote)
    requires Alike(a, b)
    ensures Alike(PausedAfter(cfg, ea, a, o, phase, note), PausedAfter(cfg, eb, b, o, phase, note))
  {
    hide Appended, Drafts;
    var review := Some(PendingReview(o.id, phase));
    AppendedAlike(cfg, ea, eb,
                  a.(status := Paused, review := review, history := a.history + [note]),
                  b.(status := Paused, review := review, history := b.history + [note]),
                  Draft(CampaignPaused, a.nextIteration - 1, Some(o.id), NoPolicy, PausedOutcome, Phased(phase)));
  }

  lemma FuzzingAlike(cfg: Config, ea: Env, eb: Env, a: State, b: State, o: Objective)
    requires Alike(a, b)
    ensures Alike(Saved(FuzzingStopped(cfg, ea, a, o)), Saved(FuzzingStopped(cfg, eb, b, o)))
  {
    hide Appended, Drafts;
    var notes := seq(|o.stopSignals|, i requires 0 <= i < |o.stopSignals| => SignalNote(o.stopSignals[i]));
    AppendedAlike(cfg, ea, eb,
                  StopObjective(a, o.id, StoppedByCondition).(history := a.history + notes,
                                                              nextIteration := a.nextIteration + 1),
                  StopObjective(b, o.id, StoppedByCondition).(history := b.history + notes,
                                                              nextIteration := b.nextIteration + 1),
                  Draft(CampaignStop, a.nextIteration, Some(o.id), FuzzingSafetyStop, ConditionStopOutcome,
                        StopConditions(o.stopSignals)));
  }

  lemma LockoutAlike(cfg: Config, ea: Env, eb: Env, a: State, b: State, o: Objective)
    requires Alike(a, b)
    ensures Alike(Saved(LockoutPaused(cfg, ea, a, o)), Saved(LockoutPaused(cfg, eb, b, o)))
  {
    hide Appended, Drafts;
    var review := Some(PendingReview(o.id, PreExecution));
    AppendedAlike(cfg, ea, eb,
                  a.(current := Some(o.id), status := Paused, review := review,
                     history := a.history + [LockoutNote(o.id)], nextIteration := a.nextIteration + 1),
                  b.(current := Some(o.id), status := Paused, review := review,
                     history := b.history + [LockoutNote(o.id)], nextIteration := b.nextIteration + 1),
                  Draft(CampaignPaused, a.nextIteration, Some(o.id), LockoutPause, PausedOutcome,
                        Phased(PreExecution)));
  }

  lemma PreExecutionAlike(cfg: Config, ea: Env, eb: Env, a: State, b: State, o: Objective, why: StopReason)
    requires Alike(a, b)
    ensures Alike(PreExecutionStopped(cfg, ea, a, o, why), PreExecutionStopped(cfg, eb, b, o, why))
  {
    hide Appended, Drafts;
    var status := if a.operatorStop then StoppedByOperator else StoppedByBudget;
    AppendedAlike(cfg, ea, eb,
                  StopObjective(a, o.id, status).(history := a.history + [StopReasonNote(why)],
                                                  nextIteration := a.nextIteration + 1),
                  StopObjective(b, o.id, status).(history := b.history + [StopReasonNote(why)],
                                                  nextIteration := b.nextIteration + 1),
                  Draft(CampaignStop, a.nextIteration, Some(o.id), StoppedBy(why), VerdictOutcome(PolicyStop),
                        StopDetail(why)));
  }

  lemma VisitAlike(cfg: Config, ea: Env, eb: Env, a: State, b: State, o: Objective, baseA: real, baseB: real)
    requires Alike(a, b) && SameOracles(ea, eb) && Aligned(ea, baseA, eb, baseB)
    ensures Alike(Visit(cfg, ea, a, o, baseA).s, Visit(cfg, eb, b, o, baseB).s)
  {
    hide FuzzingStopped, LockoutPaused, PreExecutionStopped, Executed, Drafts, Denial;
    if o.stopSignals != [] {
      FuzzingAlike(cfg, ea, eb, a, b, o);
    } else if o.lockoutRisk && o.id !in a.reviewed {
      LockoutAlike(cfg, ea, eb, a, b, o);
    } else {
      assert baseA + (ea.clock(a.nextIteration, BudgetCheck) - ea.started)
          == baseB + (eb.clock(b.nextIteration, BudgetCheck) - eb.started);
      var denial := DenialFor(cfg, ea, a, o, baseA);
      assert denial == DenialFor(cfg, eb, b, o, baseB);
      if denial.Some? {
        PreExecutionAlike(cfg, ea, eb, a, b, o, denial.value);
      } else {
        ExecutedAlike(cfg, ea, eb, a, b, o, baseA, baseB);
      }
    }
  }

  lemma FinishedAlike(cfg: Config, ea: Env, eb: Env, a: State, b: State, baseA: real, baseB: real)
    requires Alike(a, b)
    ensures Alike(Finished(cfg, ea, a, baseA), Finished(cfg, eb, b, baseB))
    ensures Finished(cfg, ea, a, baseA).elapsed == baseA + (ea.ended - ea.started)
  {
    hide Drafts;
    if a.status == Running && a.pending == [] {
      AppendedAlike(cfg, ea, eb,
                    a.(elapsed := baseA + (ea.ended - ea.started), status := Completed, current := None),
                    b.(elapsed := baseB + (eb.ended - eb.started), status := Completed, current := None),
                    Draft(CampaignFinished, 0, None, NoPolicy, CompletedOutcome, IterationCount(a.nextIteration - 1)));
    }
  }

  lemma BegunAlike(cfg: Config, ea: Env, eb: Env, a: State, b: State)
    requires Alike(a, b)
    ensures Alike(Begun(cfg, ea, a), Begun(cfg, eb, b)) && Begun(cfg, ea, a).elapsed == a.elapsed
  {
    hide Drafts;
    assert |a.events| == |Drafts(a.events)| == |b.events|;
    var started := Draft(CampaignStarted, 0, None, NoPolicy, PlannedOutcome, NoDetails);
    AppendedAlike(cfg, ea, eb, a, b, started);
    var a1 := if a.events == [] then Appended(cfg, ea, a, started) else a;
    var b1 := if b.events == [] then Appended(cfg, eb, b, started) else b;
    AppendedAlike(cfg, ea, eb, a1, b1, Draft(CampaignResumed, 0, None, NoPolicy, RunningOutcome, NoDetails));
  }

  // ----- The loop reaches the head -----

  /** Positions before the head are skipped. */
  lemma {:induction false} LoopSkips(cfg: Config, env: Env, s: State, k: nat, steps: nat, base: real)
    requires ValidConfig(cfg) && Dispositions(cfg, s) && s.stopped == [] && k <= |s.completed|
    ensures |s.completed| <= |cfg.order|
    ensures Loop(cfg, env, s, k, steps, base) == Loop(cfg, env, s, |s.completed|, steps, base)
    decreases |s.completed| - k
  {
    hide ValidConfig, Visit;
    assert |s.completed + s.stopped + s.pending| == |cfg.order|;
    if k < |s.completed| {
      PendingPosition(cfg, s, k);
      LoopSkips(cfg, env, s, k + 1, steps, base);
    }
  }

  /** One pass of the loop seen from the head. */
  lemma LoopAtHead(cfg: Config, env: Env, s: State, steps: nat, base: real)
    requires ValidConfig(cfg) && ValidEnv(env) && Checkpointed(cfg, s) && s.status == Running
    ensures s.pending == [] ==> Loop(cfg, env, s, 0, steps, base) == Progress(s, [])
    ensures s.pending != [] && OutOfSteps(env, steps) ==> Loop(cfg, env, s, 0, steps, base) == Progress(s, [])
    ensures s.pending != [] ==> |s.completed| < |cfg.order| && AtHead(cfg, s, HeadObjective(cfg, s))
    ensures s.pending != [] && !OutOfSteps(env, steps) ==>
      (var v := Visit(cfg, env, s, HeadObjective(cfg, s), base);
       var rest := Loop(cfg, env, v.s, 0, steps + 1, base);
       Loop(cfg, env, s, 0, steps, base) ==
         if v.s.status == Running then Progress(rest.s, v.saves + rest.saves) else v)
  {
    hide ValidConfig, Visit, Inv, ValidEnv;
    RunningFacts(cfg, s);
    LoopSkips(cfg, env, s, 0, steps, base);
    var n := |s.completed|;
    assert |s.completed + s.stopped + s.pending| == |cfg.order|;
    if s.pending != [] {
      PendingPosition(cfg, s, n);
      HeadFacts(cfg, s);
      var o := HeadObjective(cfg, s);
      VisitKeeps(cfg, env, s, o, base);
      var v := Visit(cfg, env, s, o, base);
      if v.s.status == Running {
        RunningFacts(cfg, v.s);
        LoopSkips(cfg, env, v.s, 0, steps + 1, base);
      }
    }
  }

  // ----- One objective per call -----

  /** One call with max_steps = 1 that leaves the campaign running has completed the head. */
  lemma OneStep(cfg: Config, env: Env, s: State)
    requires ValidConfig(cfg) && ValidEnv(env) && Inv(cfg, s) && Executable(s.status) && env.maxSteps == Some(1)
    ensures var t := RunResult(cfg, env, s); var b := Begun(cfg, env, s);
      && Checkpointed(cfg, t) && Checkpointed(cfg, b) && b.status == Running && b.elapsed == s.elapsed
      && b.pending == s.pending && b.completed == s.completed
      && (s.pending == [] ==> t == Finished(cfg, env, b, b.elapsed))
      && (s.pending != [] ==>
            && |b.completed| < |cfg.order| && AtHead(cfg, b, HeadObjective(cfg, b))
            && t == Finished(cfg, env, Visit(cfg, env, b, HeadObjective(cfg, b), b.elapsed).s, b.elapsed))
      && (t.status == Running ==> s.pending != [] && t.pending != [] && t.pending == s.pending[1..])
  {
    hide ValidConfig, Visit, Inv, ValidEnv, Begun, Loop;
    RunningFacts(cfg, s);
    BegunKeeps(cfg, env, s);
    var b := Begun(cfg, env, s);
    RunKeeps(cfg, env, s);
    LoopAtHead(cfg, env, b, 0, b.elapsed);
    if s.pending != [] {
      var o := HeadObjective(cfg, b);
      VisitKeeps(cfg, env, b, o, b.elapsed);
      var v := Visit(cfg, env, b, o, b.elapsed);
      if v.s.status == Running {
        LoopAtHead(cfg, env, v.s, 1, b.elapsed);
      }
    }
  }

  ghost predicate StepEnvs(envs: nat -> Env) {
    forall k: nat :: ValidEnv(envs(k)) && envs(k).maxSteps == Some(1)
  }

  /** Calls with max_steps = 1 until the campaign no longer runs: the last state and the last call's number. */
  ghost function Stepwise(cfg: Config, envs: nat -> Env, s: State, k: nat): (State, nat)
    requires ValidConfig(cfg) && StepEnvs(envs) && Inv(cfg, s) && Executable(s.status)
    decreases |s.pending|
  {
    var t := RunResult(cfg, envs(k), s);
    assert ValidEnv(envs(k)) && envs(k).maxSteps == Some(1);
    OneStep(cfg, envs(k), s);
    if t.status == Running then Stepwise(cfg, envs, t, k + 1) else (t, k)
  }

  /**
   The calls share gate, executor and clock with the unbounded invocation.  The clock is read at
   arbitrary moments when a call ends; only between one call's end and the next call's start does
   it not advance.
   */
  ghost predicate Handover(env: Env, envs: nat -> Env) {
    && envs(0).started == env.started
    && (forall k: nat :: SameOracles(envs(k), env))
    && (forall k: nat :: envs(k + 1).started == envs(k).ended)
  }

  /** From a state inside the unbounded loop and its stepwise counterpart at the start of call k. */
  lemma {:induction false} StepwiseFollows(cfg: Config, env: Env, envs: nat -> Env, s: State, k: nat, u: State,
                                           base: real)
    requires ValidConfig(cfg) && StepEnvs(envs) && ValidEnv(env) && env.maxSteps.None? && Handover(env, envs)
    requires Inv(cfg, s) && Executable(s.status)
    requires Checkpointed(cfg, u) && u.status == Running
    requires Alike(Begun(cfg, envs(k), s), u) && Aligned(envs(k), s.elapsed, env, base)
    ensures var (t, last) := Stepwise(cfg, envs, s, k);
      && Alike(t, Finished(cfg, env, Loop(cfg, env, u, 0, 0, base).s, base))
      && t.elapsed == base + (envs(last).ended - env.started)
    decreases |s.pending|
  {
    hide ValidConfig, Visit, Inv, ValidEnv, Begun, Finished, Alike, Loop, SameOracles;
    var ek := envs(k);
    assert ValidEnv(ek) && ek.maxSteps == Some(1) && SameOracles(ek, env);
    OneStep(cfg, ek, s);
    var b := Begun(cfg, ek, s);
    LoopAtHead(cfg, env, u, 0, base);
    AlikeFacts(cfg, b, u);
    if s.pending == [] {
      FinishedAlike(cfg, ek, env, b, u, b.elapsed, base);
      FinishedStatus(cfg, ek, b, b.elapsed);
    } else {
      var o := HeadObjective(cfg, b);
      var v, w := Visit(cfg, ek, b, o, b.elapsed).s, Visit(cfg, env, u, o, base).s;
      VisitAlike(cfg, ek, env, b, u, o, b.elapsed, base);
      VisitKeeps(cfg, env, u, o, base);
      AlikeFacts(cfg, v, w);
      LoopIgnoresSteps(cfg, env, w, 1, 0, base);
      FinishedAlike(cfg, ek, env, v, w, b.elapsed, base);
      FinishedStatus(cfg, ek, v, b.elapsed);
      if v.status == Running {
        LoopAtHead(cfg, env, w, 0, base);
        var t := RunResult(cfg, ek, s);
        if t.status == Running {
          RestartAlike(cfg, ek, envs(k + 1), v, w, b.elapsed);
          StepwiseFollows(cfg, env, envs, t, k + 1, w, base);
        }
      }
    }
  }

  lemma AlikeFacts(cfg: Config, a: State, b: State)
    requires Alike(a, b)
    ensures a.status == b.status && a.pending == b.pending && a.completed == b.completed
  {
  }

  lemma FinishedStatus(cfg: Config, env: Env, s: State, base: real)
    ensures var t := Finished(cfg, env, s, base);
      && t.status == (if s.status == Running && s.pending == [] then Completed else s.status)
      && t.elapsed == base + (env.ended - env.started)
      && (t.status == Running ==> t == Saved(s.(elapsed := t.elapsed)))
  {
  }

  /** A continuing call picks up exactly where the last one stopped. */
  lemma RestartAlike(cfg: Config, env: Env, next: Env, v: State, w: State, base: real)
    requires Alike(v, w) && v.status == Running && v.pending != [] && v.events != []
    ensures Alike(Begun(cfg, next, Finished(cfg, env, v, base)), w)
  {
  }

  /** Without a step limit the step count does not matter. */
  lemma {:induction false} LoopIgnoresSteps(cfg: Config, env: Env, s: State, i: nat, j: nat, base: real)
    requires env.maxSteps.None?
    ensures Loop(cfg, env, s, 0, i, base) == Loop(cfg, env, s, 0, j, base)
  {
    LoopIgnoresStepsFrom(cfg, env, s, 0, i, j, base);
  }

  lemma {:induction false} LoopIgnoresStepsFrom(cfg: Config, env: Env, s: State, k: nat, i: nat, j: nat, base: real)
    requires env.maxSteps.None?
    ensures Loop(cfg, env, s, k, i, base) == Loop(cfg, env, s, k, j, base)
    decreases |cfg.order| - k
  {
    hide Visit;
    if k < |cfg.order| {
      LoopIgnoresStepsFrom(cfg, env, s, k + 1, i, j, base);
      LoopIgnoresStepsFrom(cfg, env, Visit(cfg, env, s, cfg.order[k], base).s, k + 1, i + 1, j + 1, base);
    }
  }

  /**
   Step refinement: same dispositions, status, reviews, counters, next iteration, stop history
   and events (up to stamps and hashes), and the elapsed time the clock shows at the last reading.
   */
  lemma {:induction false} StepwiseRefinesUnbounded(cfg: Config, env: Env, envs: nat -> Env, s: State)
    requires ValidConfig(cfg) && ValidEnv(env) && env.maxSteps.None? && StepEnvs(envs) && Handover(env, envs)
    requires Inv(cfg, s) && Executable(s.status)
    ensures var (t, last) := Stepwise(cfg, envs, s, 0);
      && Alike(t, RunResult(cfg, env, s))
      && t.elapsed == s.elapsed + (envs(last).ended - env.started)
  {
    hide ValidConfig, Inv, ValidEnv, Begun, Finished, Alike, Loop, SameOracles;
    BegunKeeps(cfg, env, s);
    RunningFacts(cfg, s);
    LikeItself(s);
    BegunAlike(cfg, envs(0), env, s, s);
    BegunElapsed(cfg, env, s);
    StepwiseFollows(cfg, env, envs, s, 0, Begun(cfg, env, s), s.elapsed);
  }

  lemma LikeItself(s: State)
    ensures Alike(s, s)
  {
  }

  lemma BegunElapsed(cfg: Config, env: Env, s: State)
    ensures Begun(cfg, env, s).elapsed == s.elapsed
  {
  }
}
