/** Every transition of the engine keeps the campaign invariant. */
module CampaignSteps {
  import opened Basics
  import opened Objectives
  import opened EventLog
  import opened CampaignState
  import opened CampaignSpec
  import opened CampaignInvariant

  // ----- Appending one event -----

  lemma SnocMonotone(cfg: Config, events: seq<Event>, e: Event)
    ensures forall id, phase :: ApprovalLogged(events, id, phase) ==> ApprovalLogged(events + [e], id, phase)
    ensures forall id :: Justified(cfg, events, id) ==> Justified(cfg, events + [e], id)
  {
    var longer := events + [e];
    forall id, phase | ApprovalLogged(events, id, phase) ensures ApprovalLogged(longer, id, phase) {
      var i :| 0 <= i < |events| && ApprovalAt(events[i], id, phase);
      assert ApprovalAt(longer[i], id, phase);
    }
    forall id | Justified(cfg, events, id) ensures Justified(cfg, longer, id) {
      var j :| 0 <= j < |events| && CompletionAt(cfg, events, id, j);
      assert longer[..j] == events[..j];
      assert CompletionAt(cfg, longer, id, j);
    }
  }

  lemma SnocDependencies(cfg: Config, events: seq<Event>, e: Event)
    requires forall j :: 0 <= j < |events| ==> DependenciesJustified(cfg, events, j)
    requires DependenciesJustified(cfg, events + [e], |events|)
    ensures forall j :: 0 <= j < |events + [e]| ==> DependenciesJustified(cfg, events + [e], j)
  {
    var longer := events + [e];
    forall j | 0 <= j < |longer| ensures DependenciesJustified(cfg, longer, j) {
      if j < |events| {
        assert DependenciesJustified(cfg, events, j);
        assert longer[..j] == events[..j];
      }
    }
  }

  lemma SnocCounts(events: seq<Event>, e: Event)
    ensures forall m :: Count(events + [e], m) == Count(events, m) + if Matches(e, m) then 1 else 0
  {
    forall m ensures Count(events + [e], m) == Count(events, m) + if Matches(e, m) then 1 else 0 {
      CountSnoc(events, e, m);
    }
  }

  /** Any event but an objective_result leaves every count and justification as it was. */
  lemma {:induction false} SnocQuiet(cfg: Config, events: seq<Event>, e: Event)
    requires LogSafe(cfg, events) && e.body.draft.kind != ObjectiveResult
    ensures LogSafe(cfg, events + [e])
    ensures forall m :: Count(events + [e], m) == Count(events, m)
  {
    SnocCounts(events, e);
    SnocDependencies(cfg, events, e);
  }

  /** The result of an objective whose dependencies are justified and which has no such result yet. */
  lemma {:induction false} SnocResult(cfg: Config, events: seq<Event>, e: Event, o: Objective)
    requires LogSafe(cfg, events) && o in cfg.order
    requires e.body.draft.kind == ObjectiveResult && e.body.draft.objective == Some(o.id)
    requires forall d :: d in o.dependsOn ==> Justified(cfg, events, d)
    requires Count(events, AnyResult) < cfg.limits.maxIterations
    requires Matches(e, RunOf(o.id)) ==> Count(events, RunOf(o.id)) == 0
    requires Matches(e, GateOf(o.id)) ==> Count(events, GateOf(o.id)) == 0
    ensures LogSafe(cfg, events + [e])
  {
    SnocCounts(events, e);
    assert (events + [e])[..|events|] == events;
    SnocDependencies(cfg, events, e);
    forall id ensures Count(events + [e], RunOf(id)) <= 1 && Count(events + [e], GateOf(id)) <= 1 {
      assert Count(events, RunOf(id)) <= 1 && Count(events, GateOf(id)) <= 1;
    }
  }

  /** LogSafe is about finished facts: cutting a log short keeps it. */
  lemma LogSafePrefix(cfg: Config, events: seq<Event>, n: nat)
    requires LogSafe(cfg, events) && n <= |events|
    ensures LogSafe(cfg, events[..n])
  {
    forall id ensures Count(events[..n], RunOf(id)) <= 1 && Count(events[..n], GateOf(id)) <= 1 {
      CountPrefix(events, n, RunOf(id));
      CountPrefix(events, n, GateOf(id));
    }
    CountPrefix(events, n, AnyResult);
    forall j | 0 <= j < n ensures DependenciesJustified(cfg, events[..n], j) {
      assert DependenciesJustified(cfg, events, j);
      assert events[..n][..j] == events[..j];
    }
  }

  /** Recorded survives a quiet event when dispositions only shrink. */
  lemma QuietRecorded(cfg: Config, s: State, t: State, stamp: string, d: Draft)
    requires Recorded(cfg, s) && d.kind != ObjectiveResult
    requires t.events == s.events + [Sealed(cfg.hash, s.events, stamp, d)] && t.lastHash == LastHash(t.events)
    requires t.nextIteration >= s.nextIteration
    ensures Chained(cfg.hash, t.events) && LogSafe(cfg, t.events)
    ensures forall m :: Count(t.events, m) == Count(s.events, m)
    ensures Count(t.events, AnyResult) <= t.nextIteration - 1
    ensures forall id :: id in s.completed ==> Justified(cfg, t.events, id)
    ensures forall id :: id in s.reviewed ==> ApprovalLogged(t.events, id, PreExecution)
  {
    var e := Sealed(cfg.hash, s.events, stamp, d);
    SealedKeepsChain(cfg.hash, s.events, stamp, d);
    SnocQuiet(cfg, s.events, e);
    SnocMonotone(cfg, s.events, e);
  }

  // ----- Stops and pauses before execution -----

  /** Running, with o at the head of pending: where the loop body starts. */
  ghost predicate AtHead(cfg: Config, s: State, o: Objective) {
    && Checkpointed(cfg, s) && s.status == Running && s.pending != []
    && |s.completed| < |cfg.order| && o == HeadObjective(cfg, s)
  }

  lemma StopShape(cfg: Config, s: State, t: State, status: Status)
    requires ValidConfig(cfg) && Shape(cfg, s) && s.stopped == [] && s.pending != []
    requires status in {StoppedByPolicy, StoppedByBudget, StoppedByCondition}
    requires t.completed == s.completed && t.stopped == [s.pending[0]] && t.pending == s.pending[1..]
    requires t.skipped == s.skipped && t.reviewed == s.reviewed && t.status == status
    requires t.current.None? && t.review.None? && !t.operatorStop
    ensures Shape(cfg, t)
  {
    assert t.completed + t.stopped + t.pending == s.completed + s.stopped + s.pending;
  }

  lemma StopUntouched(cfg: Config, s: State, t: State)
    requires ValidConfig(cfg) && Shape(cfg, s) && PendingUntouched(s) && s.stopped == [] && s.pending != []
    requires t.pending == s.pending[1..]
    requires forall m :: Count(t.events, m) == Count(s.events, m)
    ensures PendingUntouched(t)
  {
    HeadFacts(cfg, s);
    forall id | id in t.pending
      ensures Count(t.events, RunOf(id)) == 0 && Count(t.events, GateOf(id)) == 0
    {
      assert id in s.pending && id != s.pending[0];
    }
  }

  /** Stopping the head with one quiet event, in whatever wording. */
  lemma StoppedHeadKeeps(cfg: Config, s: State, t: State, status: Status, stamp: string, d: Draft)
    requires ValidConfig(cfg) && Checkpointed(cfg, s) && s.stopped == [] && s.pending != []
    requires status in {StoppedByPolicy, StoppedByBudget, StoppedByCondition} && d.kind != ObjectiveResult
    requires t.completed == s.completed && t.stopped == [s.pending[0]] && t.pending == s.pending[1..]
    requires t.skipped == s.skipped && t.reviewed == s.reviewed && t.status == status
    requires t.current.None? && t.review.None? && !t.operatorStop
    requires s.nextIteration <= t.nextIteration <= s.nextIteration + 1
    requires s.nextIteration - 1 <= cfg.limits.maxIterations + 1
    requires t.requests == s.requests && t.minute == s.minute && t.failures == s.failures
    requires t.elapsed == s.elapsed && t.revision >= s.revision
    requires t.events == s.events + [Sealed(cfg.hash, s.events, stamp, d)] && t.lastHash == LastHash(t.events)
    ensures Checkpointed(cfg, t)
  {
    hide Count, LogSafe, Chained, Justified, ApprovalLogged, ValidConfig, Sealed;
    StopShape(cfg, s, t, status);
    QuietRecorded(cfg, s, t, stamp, d);
    StopUntouched(cfg, s, t);
  }

  lemma FuzzingStopKeeps(cfg: Config, env: Env, s: State, o: Objective)
    requires ValidConfig(cfg) && AtHead(cfg, s, o)
    ensures Checkpointed(cfg, Saved(FuzzingStopped(cfg, env, s, o)))
  {
    hide Recorded, ValidConfig;
    HeadFacts(cfg, s);
    var t := Saved(FuzzingStopped(cfg, env, s, o));
    StoppedHeadKeeps(cfg, s, t, StoppedByCondition, env.stamp(|s.events| + 1), t.events[|s.events|].body.draft);
  }

  lemma PreExecutionStopKeeps(cfg: Config, env: Env, s: State, o: Objective, why: StopReason)
    requires ValidConfig(cfg) && AtHead(cfg, s, o)
    ensures Checkpointed(cfg, PreExecutionStopped(cfg, env, s, o, why))
  {
    hide Recorded, ValidConfig;
    HeadFacts(cfg, s);
    var t := PreExecutionStopped(cfg, env, s, o, why);
    StoppedHeadKeeps(cfg, s, t, StoppedByBudget, env.stamp(|s.events| + 1), t.events[|s.events|].body.draft);
  }

  lemma LockoutPauseKeeps(cfg: Config, env: Env, s: State, o: Objective)
    requires ValidConfig(cfg) && AtHead(cfg, s, o) && o.id !in s.reviewed
    ensures Checkpointed(cfg, Saved(LockoutPaused(cfg, env, s, o)))
  {
    hide Count, LogSafe, Chained, Justified, ApprovalLogged, ValidConfig;
    HeadFacts(cfg, s);
    var t := Saved(LockoutPaused(cfg, env, s, o));
    QuietRecorded(cfg, s, t, env.stamp(|s.events| + 1), t.events[|s.events|].body.draft);
  }

  // ----- Execution -----

  lemma MarkKeeps(cfg: Config, s: State, o: Objective)
    requires ValidConfig(cfg) && AtHead(cfg, s, o)
    ensures Checkpointed(cfg, Marked(s, o)) && AtHead(cfg, Marked(s, o), o)
  {
    HeadFacts(cfg, s);
  }

  /** The loop lets an objective with a lockout signal through only after its review. */
  predicate Cleared(s: State, o: Objective) {
    o.lockoutRisk ==> o.id in s.reviewed
  }

  /** A dry run the gate allowed had its review, if it needed one. */
  lemma DryRunWasReviewed(cfg: Config, env: Env, s: State, o: Objective)
    requires ValidConfig(cfg) && AtHead(cfg, s, o) && Cleared(s, o) && NeedsReview(cfg, o.id)
    requires GateRespects(env, o, o.id in s.reviewed, s.nextIteration) && !env.live
    requires env.gate(o, o.id in s.reviewed, s.nextIteration) == []
    ensures ApprovalLogged(s.events, o.id, PreExecution)
  {
    HeadFacts(cfg, s);
    var o' :| o' in cfg.order && o'.id == o.id && (o'.requiresApproval || o'.lockoutRisk);
    assert o' == o && o.id in s.reviewed;
  }

  /** What the log says right after the objective_result event. */
  ghost predicate ResultKnown(cfg: Config, s: State, t: State, o: Objective, a: Attempt)
    requires s.pending != []
  {
    && Chained(cfg.hash, t.events) && t.lastHash == LastHash(t.events) && LogSafe(cfg, t.events)
    && Count(t.events, AnyResult) <= t.nextIteration - 1
    && (forall id :: id in s.completed ==> Justified(cfg, t.events, id))
    && (forall id :: id in s.reviewed ==> ApprovalLogged(t.events, id, PreExecution))
    && (a.Allowed() && a.verdict != ManualReview ==> Justified(cfg, t.events, o.id))
    && (forall id :: id in s.pending[1..] ==> Count(t.events, RunOf(id)) == 0 && Count(t.events, GateOf(id)) == 0)
    && Count(t.events, RunOf(o.id)) == (if a.GateOnly() then 0 else 1)
    && (a.GateOnly() || o.id in s.reviewed || Count(t.events, GateOf(o.id)) == 0)
  }

  lemma ResultRecorded(cfg: Config, env: Env, s: State, o: Objective)
    requires ValidConfig(cfg) && AtHead(cfg, s, o) && Cleared(s, o)
    requires GateRespects(env, o, o.id in s.reviewed, s.nextIteration) && ExecutorRespects(env, o, s.nextIteration)
    requires s.nextIteration - 1 < cfg.limits.maxIterations
    ensures var a := AttemptAt(env, s, o); ResultKnown(cfg, s, ResultLogged(cfg, env, s, o, a), o, a)
  {
    hide LogSafe, Chained, Count, ValidConfig, Justified, ApprovalLogged, Metered;
    HeadFacts(cfg, s);
    var a := AttemptAt(env, s, o);
    var t := ResultLogged(cfg, env, s, o, a);
    var e := t.events[|s.events|];
    assert t.events == s.events + [e];
    SealedKeepsChain(cfg.hash, s.events, env.stamp(|s.events| + 1), e.body.draft);
    SnocMonotone(cfg, s.events, e);
    SnocCounts(s.events, e);
    assert o.id in s.pending;
    assert forall d :: d in o.dependsOn ==> d in Elements(o.dependsOn);
    SnocResult(cfg, s.events, e, o);
    if a.Allowed() && a.verdict != ManualReview {
      RunJustifies(cfg, env, s, o, e);
    }
    forall id | id in s.pending[1..] ensures Count(t.events, RunOf(id)) == 0 && Count(t.events, GateOf(id)) == 0 {
      assert id in s.pending && id != s.pending[0];
    }
  }

  lemma RunJustifies(cfg: Config, env: Env, s: State, o: Objective, e: Event)
    requires ValidConfig(cfg) && AtHead(cfg, s, o) && Cleared(s, o) && AllowedRun(e, o.id) && !env.live
    requires GateRespects(env, o, o.id in s.reviewed, s.nextIteration)
    requires env.gate(o, o.id in s.reviewed, s.nextIteration) == []
    ensures Justified(cfg, s.events + [e], o.id)
  {
    var longer := s.events + [e];
    assert longer[..|s.events|] == s.events;
    if NeedsReview(cfg, o.id) {
      DryRunWasReviewed(cfg, env, s, o);
    }
    assert CompletionAt(cfg, longer, o.id, |s.events|);
  }

  lemma PausedRecorded(cfg: Config, env: Env, s: State, r: State, o: Objective, a: Attempt, phase: Phase,
                       note: StopNote)
    requires s.pending != [] && o.id == s.pending[0] && ResultKnown(cfg, s, r, o, a)
    requires r.completed == s.completed && r.reviewed == s.reviewed && r.pending == s.pending
    requires a.GateOnly() ==> phase == PreExecution && o.id !in s.reviewed
    requires !a.GateOnly() ==> phase == PostExecution
    ensures Recorded(cfg, PausedAfter(cfg, env, r, o, phase, note))
  {
    hide LogSafe, Chained, Justified, ApprovalLogged, Matches, Count;
    var t := PausedAfter(cfg, env, r, o, phase, note);
    var e := t.events[|r.events|];
    assert t.events == r.events + [e];
    SealedKeepsChain(cfg.hash, r.events, env.stamp(|r.events| + 1), e.body.draft);
    SnocQuiet(cfg, r.events, e);
    SnocMonotone(cfg, r.events, e);
    assert t.pending == [o.id] + s.pending[1..];
  }

  /** The head leaves pending: completed on an allowed dry run, stopped otherwise. */
  lemma MovedRecorded(cfg: Config, s: State, r: State, t: State, o: Objective, a: Attempt)
    requires s.pending != [] && o.id == s.pending[0] && ResultKnown(cfg, s, r, o, a)
    requires t.events == r.events && t.lastHash == r.lastHash && t.nextIteration == r.nextIteration
    requires t.pending == s.pending[1..] && t.reviewed == s.reviewed
    requires t.completed == s.completed
          || (t.completed == s.completed + [o.id] && a.Allowed() && a.verdict != ManualReview)
    ensures Recorded(cfg, t)
  {
    hide LogSafe, Chained, Justified, ApprovalLogged, Count;
  }

  /** The four ways a result is disposed of, as seen from the log after the result. */
  lemma DisposedRecorded(cfg: Config, env: Env, s: State, o: Objective)
    requires ValidConfig(cfg) && AtHead(cfg, s, o) && Cleared(s, o)
    requires GateRespects(env, o, o.id in s.reviewed, s.nextIteration) && ExecutorRespects(env, o, s.nextIteration)
    requires s.nextIteration - 1 < cfg.limits.maxIterations
    ensures var a := AttemptAt(env, s, o);
      Recorded(cfg, Disposed(cfg, env, ResultLogged(cfg, env, s, o, a), o, a))
  {
    hide Recorded, Metered, ResultKnown, PausedAfter, ValidConfig;
    HeadFacts(cfg, s);
    var a := AttemptAt(env, s, o);
    var r := ResultLogged(cfg, env, s, o, a);
    ResultRecorded(cfg, env, s, o);
    if a.GateOnly() {
      PausedRecorded(cfg, env, s, r, o, a, PreExecution, ApprovalNote(o.id));
    } else if a.Allowed() && a.verdict == ManualReview {
      PausedRecorded(cfg, env, s, r, o, a, PostExecution, ReviewNeededNote(o.id));
    } else {
      MovedRecorded(cfg, s, r, Disposed(cfg, env, r, o, a), o, a);
    }
  }

  lemma PauseShape(cfg: Config, s: State, t: State, phase: Phase)
    requires Shape(cfg, s) && s.stopped == [] && s.pending != [] && s.status == Running
    requires t.completed == s.completed && t.stopped == s.stopped && t.pending == s.pending
    requires t.skipped == s.skipped && t.reviewed == s.reviewed && t.operatorStop == s.operatorStop
    requires t.status == Paused && t.current == Some(s.pending[0])
    requires t.review == Some(PendingReview(s.pending[0], phase))
    requires phase == PreExecution ==> s.pending[0] !in s.reviewed
    ensures Shape(cfg, t)
  {
  }

  lemma CompleteShape(cfg: Config, s: State, t: State, status: Status)
    requires ValidConfig(cfg) && Shape(cfg, s) && s.stopped == [] && s.pending != []
    requires status in {Running, ReadyToResume}
    requires t.completed == s.completed + [s.pending[0]] && t.stopped == s.stopped && t.pending == s.pending[1..]
    requires t.skipped == s.skipped && t.reviewed == s.reviewed && t.status == status
    requires t.current.None? && t.review.None? && !t.operatorStop
    ensures Shape(cfg, t)
  {
    assert t.completed + t.stopped + t.pending == s.completed + s.stopped + s.pending;
  }

  lemma DisposedShape(cfg: Config, env: Env, s: State, o: Objective)
    requires ValidConfig(cfg) && AtHead(cfg, s, o) && s.current == Some(o.id)
    requires GateRespects(env, o, o.id in s.reviewed, s.nextIteration)
    ensures var a := AttemptAt(env, s, o);
      Shape(cfg, Disposed(cfg, env, ResultLogged(cfg, env, s, o, a), o, a))
  {
    HeadFacts(cfg, s);
    var a := AttemptAt(env, s, o);
    var t := Disposed(cfg, env, ResultLogged(cfg, env, s, o, a), o, a);
    if a.GateOnly() {
      PauseShape(cfg, s, t, PreExecution);
    } else if !a.Allowed() {
      StopShape(cfg, s, t, StoppedByPolicy);
    } else if a.verdict == ManualReview {
      PauseShape(cfg, s, t, PostExecution);
    } else {
      CompleteShape(cfg, s, t, Running);
    }
  }

  lemma DisposedMetered(cfg: Config, env: Env, s: State, o: Objective, base: real)
    requires Metered(cfg, s) && ExecutorRespects(env, o, s.nextIteration)
    requires DenialFor(cfg, env, s, o, base).None? && !s.operatorStop
    ensures var a := AttemptAt(env, s, o);
      Metered(cfg, Disposed(cfg, env, ResultLogged(cfg, env, s, o, a), o, a))
  {
  }

  lemma DisposedSettled(cfg: Config, env: Env, s: State, o: Objective)
    ensures var a := AttemptAt(env, s, o);
      var t := Disposed(cfg, env, ResultLogged(cfg, env, s, o, a), o, a);
      && t.events != [] && t.status in {Running, Paused, StoppedByPolicy}
      && (t.status == Running ==>
            && t.completed == s.completed + [o.id] && t.pending == Remove(s.pending, o.id)
            && t.operatorStop == s.operatorStop)
  {
  }

  /** The invariant reads the elapsed time and the revision only through their signs. */
  lemma Retimed(cfg: Config, s: State, elapsed: real)
    requires Inv(cfg, s)
    ensures Inv(cfg, s.(elapsed := elapsed)) && Inv(cfg, Saved(s.(elapsed := elapsed)))
  {
  }

  /** Executing the head within budget keeps the invariant and saves two valid checkpoints. */
  lemma ExecutionKeeps(cfg: Config, env: Env, s: State, o: Objective, base: real)
    requires ValidConfig(cfg) && ValidEnv(env) && AtHead(cfg, s, o)
    requires DenialFor(cfg, env, s, o, base).None? && Cleared(s, o)
    ensures Checkpointed(cfg, Executed(cfg, env, s, o, base))
  {
    hide Shape, Recorded, Metered, Disposed, ResultLogged, ValidConfig;
    MarkKeeps(cfg, s, o);
    var m := Marked(s, o);
    assert GateRespects(env, o, o.id in m.reviewed, m.nextIteration) && ExecutorRespects(env, o, m.nextIteration);
    assert !s.operatorStop && DenialFor(cfg, env, m, o, base).None?;
    DisposedRecorded(cfg, env, m, o);
    DisposedShape(cfg, env, m, o);
    DisposedMetered(cfg, env, m, o, base);
    DisposedSettled(cfg, env, m, o);
    var a := AttemptAt(env, m, o);
    assert a == AttemptAt(env, s, o);
    Retimed(cfg, Disposed(cfg, env, ResultLogged(cfg, env, m, o, a), o, a),
            base + (env.clock(s.nextIteration, IterationEnd) - env.started));
  }

  /** The loop goes on only past a completed head. */
  lemma VisitStatus(cfg: Config, env: Env, s: State, o: Objective, base: real)
    requires ValidConfig(cfg) && AtHead(cfg, s, o)
    ensures var v := Visit(cfg, env, s, o, base);
      && v.s.status != ReadyToResume && v.s.status != Completed && v.s.status != Planned
      && (v.s.status == Running ==> v.s.completed == s.completed + [o.id] && v.s.pending == s.pending[1..])
      && (v.s.status == Running ==> |v.saves| == 2)
  {
    hide Disposed, ResultLogged, Recorded, ValidConfig;
    HeadFacts(cfg, s);
    DisposedSettled(cfg, env, Marked(s, o), o);
    assert AttemptAt(env, Marked(s, o), o) == AttemptAt(env, s, o);
  }

  /** One pass of the loop body keeps the invariant in memory and in every checkpoint it saves. */
  lemma VisitKeeps(cfg: Config, env: Env, s: State, o: Objective, base: real)
    requires ValidConfig(cfg) && ValidEnv(env) && AtHead(cfg, s, o)
    ensures var v := Visit(cfg, env, s, o, base);
      && Checkpointed(cfg, v.s)
      && (v.s.status == Running ==> v.s.completed == s.completed + [o.id] && v.s.pending == s.pending[1..])
      && (v.s.status != Running ==> v.s.status != ReadyToResume)
      && (forall i :: 0 <= i < |v.saves| ==> Checkpointed(cfg, v.saves[i]))
  {
    hide Inv, Shape, ValidConfig, ValidEnv, Executed, FuzzingStopped, LockoutPaused, PreExecutionStopped, DenialFor;
    VisitStatus(cfg, env, s, o, base);
    if o.stopSignals != [] {
      FuzzingStopKeeps(cfg, env, s, o);
    } else if o.lockoutRisk && o.id !in s.reviewed {
      LockoutPauseKeeps(cfg, env, s, o);
    } else {
      var denial := DenialFor(cfg, env, s, o, base);
      if denial.Some? {
        PreExecutionStopKeeps(cfg, env, s, o, denial.value);
      } else {
        MarkKeeps(cfg, s, o);
        ExecutionKeeps(cfg, env, s, o, base);
      }
    }
  }
}
