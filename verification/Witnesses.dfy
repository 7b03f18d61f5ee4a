/**
 A concrete campaign: it meets what the theorems assume, uses the most iterations they allow, and
 is left by crashes in every state they speak of.
 */
module Witnesses {
  import opened Basics
  import opened Objectives
  import opened EventLog
  import opened CampaignState
  import opened CampaignSpec
  import opened CampaignInvariant
  import opened CampaignRuns
  import opened Disk
  import opened CrashSafety
  import opened RunOrder
  import opened StepRefinement
  import opened Termination
  import opened AcceptedCalls
  import opened CrashRetry

  // ----- The campaign -----

  function Zeros(): (d: Digest)
    ensures DigestForm(d)
  {
    seq(64, i => '0')
  }

  function AnIdentity(): Identity {
    Identity("1.0", "campaign", "name", "operator", Zeros(), Zeros(), (s: State) => Zeros())
  }

  const PLAIN := Objective("a", 1, [], false, false, [], 0)
  const PANEL := Objective("b", 2, [], false, true, [], 0)

  /** One plain objective, then one with a lockout signal; one iteration allowed. */
  function TightConfig(): Config {
    Config([PLAIN, PANEL], [PLAIN, PANEL], Limits(1, 10, 10, 10, 10, 10), (b: Body) => Zeros(), AnIdentity())
  }

  lemma TightConfigValid()
    ensures ValidConfig(TightConfig())
  {
    hide DigestForm;
    var order := TightConfig().order;
    assert order == [PLAIN, PANEL];
    TightOrder(order);
  }

  lemma TightOrder(order: seq<Objective>)
    requires order == [PLAIN, PANEL]
    ensures Distinct(Ids(order)) && Canonical(ById(order), order)
  {
    assert order[..1] == [PLAIN] && [PLAIN][..0] == [];
    var g := ById(order);
    assert g == map["a" := PLAIN, "b" := PANEL];
    assert order[..0] == [] && Ids(order[..0]) == [] && Elements(Ids(order[..0])) == {};
    assert Ids(order[..1]) == ["a"];
    TightKeys();
    assert GreedyAt(g, order, 0) && GreedyAt(g, order, 1);
    assert Ids(order) == ["a", "b"];
  }

  lemma TightKeys()
    ensures KeyLe(PLAIN, PLAIN) && KeyLe(PLAIN, PANEL) && KeyLe(PANEL, PANEL)
  {
    assert StringLe("a", "a") && StringLe("b", "b");
  }

  /** A gate that only asks for approvals, the network-silent executor, and a clock that stands still. */
  function StubEnv(live: bool): Env {
    Env(live,
        (o: Objective, approved: bool, i: int) =>
          if o.requiresApproval && !approved && !live then [HumanApprovalRequired] else [],
        (o: Objective, i: int) => StubExecution(live),
        0.0, (i: int, m: Moment) => 0.0, 0.0, (i: nat) => "", None)
  }

  lemma StubEnvValid(live: bool)
    ensures ValidEnv(StubEnv(live)) && ClockForward(StubEnv(live))
  {
  }

  // ----- The assumptions can be met -----

  function StepsOf(env: Env): nat -> Env {
    (k: nat) => env.(maxSteps := Some(1))
  }

  lemma SharedOracles(env: Env)
    requires ValidEnv(env) && ClockForward(env) && env.ended == env.started
    ensures StepEnvs(StepsOf(env)) && Handover(env, StepsOf(env)) && forall k: nat :: ClockForward(StepsOf(env)(k))
  {
    var envs := StepsOf(env);
    forall k: nat ensures ValidEnv(envs(k)) && envs(k).maxSteps == Some(1) && ClockForward(envs(k)) {
      assert forall o, approved, i :: GateRespects(env, o, approved, i) ==> GateRespects(envs(k), o, approved, i);
      assert forall o, i :: ExecutorRespects(env, o, i) ==> ExecutorRespects(envs(k), o, i);
    }
  }

  /** What the theorems about histories, rounds and single steps assume holds here, live and in dry run. */
  lemma AssumptionsMet(live: bool) returns (actions: seq<Action>)
    ensures ValidConfig(TightConfig()) && ValidEnv(StubEnv(live)) && ClockForward(StubEnv(live))
    ensures StepEnvs(StepsOf(StubEnv(live))) && Handover(StubEnv(live), StepsOf(StubEnv(live)))
    ensures RunEnvs((k: nat) => StubEnv(live))
    ensures Uncut(TightConfig(), actions) && ValidHistory(actions) && History(TightConfig(), actions).checkpoint.Some?
  {
    hide ValidConfig, ValidEnv, ClockForward, Uncut, StepEnvs, Handover;
    TightConfigValid();
    StubEnvValid(live);
    SharedOracles(StubEnv(live));
    actions := CampaignRunsToEnd(TightConfig(), (k: nat) => StubEnv(live), (k: nat) => "");
  }

  // ----- The iteration bound is reached -----

  lemma TightFirst(s: State)
    requires s.status == Running && s.pending == ["a", "b"] && s.reviewed == [] && !s.operatorStop
    requires CountersOf(s) == Counters(0, 0, 0, 0)
    ensures var v := Visit(TightConfig(), StubEnv(false), s, PLAIN, 0.0);
      v.s.status == Running && v.s.pending == ["b"] && v.s.reviewed == [] && v.s.nextIteration == 2 && !v.s.operatorStop
  {
    hide Sealed, LastHash;
  }

  lemma TightPause(s: State)
    requires s.status == Running && s.pending == ["b"] && s.reviewed == [] && s.nextIteration == 2
    ensures var v := Visit(TightConfig(), StubEnv(false), s, PANEL, 0.0);
      && v.s.status == Paused && v.s.pending == ["b"] && v.s.reviewed == [] && v.s.nextIteration == 3
      && v.s.current == Some("b") && v.s.review == Some(PendingReview("b", PreExecution))
      && v.s.operatorStop == s.operatorStop
  {
    hide Sealed, LastHash;
  }

  lemma TightStop(s: State, base: real)
    requires s.status == Running && s.pending == ["b"] && s.reviewed == ["b"] && s.nextIteration == 3 && !s.operatorStop
    ensures var v := Visit(TightConfig(), StubEnv(false), s, PANEL, base);
      v.s.status == StoppedByBudget && v.s.nextIteration == 4
  {
    hide Sealed, LastHash;
  }

  /** The first run completes one objective and pauses at the other, past the budget. */
  lemma TightPausedRun()
    ensures var cfg := TightConfig(); var paused := RunResult(cfg, StubEnv(false), InitialState(cfg));
      && paused.status == Paused && paused.pending == ["b"] && paused.reviewed == [] && paused.nextIteration == 3
      && paused.current == Some("b") && paused.review == Some(PendingReview("b", PreExecution)) && !paused.operatorStop
  {
    hide Visit, Sealed, LastHash;
    var cfg, env := TightConfig(), StubEnv(false);
    var b := Begun(cfg, env, InitialState(cfg));
    TightFirst(b);
    var v := Visit(cfg, env, b, PLAIN, 0.0);
    TightPause(v.s);
    assert Loop(cfg, env, v.s, 1, 1, 0.0).s == Visit(cfg, env, v.s, PANEL, 0.0).s;
    assert Loop(cfg, env, b, 0, 0, 0.0).s == Loop(cfg, env, v.s, 1, 1, 0.0).s;
  }

  /** The run after the approval stops at once. */
  lemma TightStoppedRun(ready: State)
    requires ready.status == ReadyToResume && ready.reviewed == ["b"] && ready.pending == ["b"]
    requires ready.nextIteration == 3 && !ready.operatorStop
    ensures var final := RunResult(TightConfig(), StubEnv(false), ready);
      final.status == StoppedByBudget && final.nextIteration == 4
  {
    hide Visit, Sealed, LastHash;
    var cfg, env := TightConfig(), StubEnv(false);
    var b := Begun(cfg, env, ready);
    TightStop(b, b.elapsed);
    assert Loop(cfg, env, b, 0, 0, b.elapsed) == Loop(cfg, env, b, 1, 0, b.elapsed);
    assert Loop(cfg, env, b, 1, 0, b.elapsed).s == Visit(cfg, env, b, PANEL, b.elapsed).s;
  }

  /** Run, lockout pause past the budget, approval, budget stop: max_iterations + 2 iterations used. */
  lemma IterationBoundTight()
    ensures ValidConfig(TightConfig()) && ValidEnv(StubEnv(false)) && ClockForward(StubEnv(false))
    ensures var cfg, env := TightConfig(), StubEnv(false);
      var paused := RunResult(cfg, env, InitialState(cfg));
      && paused.status == Paused && paused.current.Some? && paused.review.Some?
      && (var final := RunResult(cfg, env, ApplyReview(cfg, paused, Approval(cfg, paused, "")));
          final.status == StoppedByBudget && final.nextIteration - 1 == cfg.limits.maxIterations + 2)
  {
    hide ValidConfig, ValidEnv, ClockForward, RunResult, Sealed, LastHash;
    TightConfigValid();
    StubEnvValid(false);
    TightPausedRun();
    var cfg := TightConfig();
    var paused := RunResult(cfg, StubEnv(false), InitialState(cfg));
    TightStoppedRun(ApplyReview(cfg, paused, Approval(cfg, paused, "")));
  }

  // ----- What crashes leave -----

  lemma TightExecuting(live: bool)
    ensures var w, env := Workspace([], None), StubEnv(live);
      && Executing(TightConfig(), w, env) && Opening(Loaded(TightConfig(), w)) == 1
      && Logged(TightConfig(), env, Loaded(TightConfig(), w)) == if live then 2 else 1
  {
    hide ValidEnv, ClockForward, Settled;
    StubEnvValid(live);
    EmptySettled(TightConfig());
  }

  lemma OneCall(cfg: Config, a: Action)
    ensures History(cfg, [a]) == Step(cfg, Workspace([], None), a)
  {
    hide Step;
    assert [a][..0] == [];
  }

  /**
   A fresh run cut after its fourth write leaves the log one event ahead of the checkpoint, a live
   one cut after its fifth leaves it two ahead; from both every run and review is refused, and an
   operator stop leaves a log that does not verify.
   */
  lemma LogRunsAhead(live: bool, again: Env, r: Review, stamp: string)
    ensures var cfg, ahead := TightConfig(), if live then 2 else 1;
      var w := History(cfg, [Action(FreshRun(StubEnv(live)), 3 + ahead)]);
      && ValidHistory([Action(FreshRun(StubEnv(live)), 3 + ahead)])
      && LogAhead(w) && |w.log| == |w.checkpoint.value.events| + ahead
      && Perform(cfg, w, FreshRun(again)).Err? && Perform(cfg, w, ResumeRun(again)) == Err(LogMismatch)
      && Perform(cfg, w, Decide(r)).Err? && Perform(cfg, w, Halt(stamp)).Ok?
      && (var stopped := ApplyAll(w, Perform(cfg, w, Halt(stamp)).value);
          stopped.checkpoint.Some? && !LogMatches(cfg, stopped.checkpoint.value, stopped.log))
  {
    hide ValidConfig, ValidEnv, ClockForward, Executing, Logged, Opening;
    hide Step, Perform, LogAhead, Sound, LogMatches, ApplyAll;
    var cfg, ahead, w := TightConfig(), if live then 2 else 1, Workspace([], None);
    TightConfigValid();
    StubEnvValid(live);
    TightExecuting(live);
    CrashLeavesLogAhead(cfg, w, StubEnv(live), ahead);
    OneCall(cfg, Action(FreshRun(StubEnv(live)), 3 + ahead));
    LogAheadRefused(cfg, CutRun(cfg, w, StubEnv(live), ahead), again, r, stamp);
  }

  /** A fresh run cut after its first write leaves an event and no checkpoint: even a fresh run is refused then. */
  lemma LogWithoutCheckpoint(again: Env)
    ensures var cfg := TightConfig(); var w := History(cfg, [Action(FreshRun(StubEnv(false)), 1)]);
      w.checkpoint.None? && |w.log| == 1 && Perform(cfg, w, FreshRun(again)) == Err(LogExists)
  {
    hide ValidConfig, ValidEnv, ClockForward, Executing, ApplyAll, Layout, Writes, Run, Begun, Executed, LetThrough;
    var cfg, env, w := TightConfig(), StubEnv(false), Workspace([], None);
    TightConfigValid();
    StubEnvValid(false);
    OneCall(cfg, Action(FreshRun(env), 1));
    FirstWrite(cfg, env);
  }

  /** The first write of a fresh run is its started event, and there are more. */
  lemma FirstWrite(cfg: Config, env: Env)
    ensures var writes := Writes(0, Run(cfg, env, InitialState(cfg)));
      |writes| > 1 && ApplyAll(Workspace([], None), writes[..1]).checkpoint.None?
      && |ApplyAll(Workspace([], None), writes[..1]).log| == 1
  {
    hide Loop, Finished, Begun, Writes, ApplyAll;
    FreshOpens(cfg, env);
    FirstOfBatch(Run(cfg, env, InitialState(cfg)));
  }

  lemma FreshOpens(cfg: Config, env: Env)
    ensures |Begun(cfg, env, InitialState(cfg)).events| == 1
  {
    hide Sealed;
  }

  lemma {:induction false} FirstOfBatch(saves: seq<State>)
    requires saves != [] && |saves[0].events| == 1
    ensures var writes := Writes(0, saves);
      |writes| > 1 && ApplyAll(Workspace([], None), writes[..1]) == Workspace(saves[0].events, None)
  {
    hide Writes, ApplyAll;
    OneSaveFirst(0, saves);
    var e := saves[0].events[0];
    assert saves[0].events[0..] == [e] && saves[0].events == [e];
    assert Writes(0, saves)[..1] == [AppendEvent(e)];
    OneAppend(e);
  }

  lemma OneAppend(e: Event)
    ensures ApplyAll(Workspace([], None), [AppendEvent(e)]) == Workspace([e], None)
  {
    var one := [AppendEvent(e)];
    assert one[1..] == [];
  }
}
