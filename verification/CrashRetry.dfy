/**
 A run cut off while it executes an objective: what is on disk, when the objective is retried, and
 when nothing but an operator stop is accepted any more.
 */
module CrashRetry {
  import opened Basics
  import opened Objectives
  import opened EventLog
  import opened CampaignState
  import opened CampaignSpec
  import opened CampaignInvariant
  import opened CampaignSteps
  import opened CampaignRuns
  import opened Disk
  import opened CrashSafety
  import opened RunOrder
  import opened StepRefinement
  import opened AcceptedCalls

  // ----- What a run writes first -----

  /** The checkpoint that marks the first objective of a run from s current. */
  function FirstMarked(cfg: Config, env: Env, s: State): State
    requires |s.completed| < |cfg.order|
  {
    Marked(Begun(cfg, env, s), HeadObjective(cfg, s))
  }

  /** The checkpoint after its execution. */
  function FirstExecuted(cfg: Config, env: Env, s: State): State
    requires |s.completed| < |cfg.order|
  {
    Executed(cfg, env, Begun(cfg, env, s), HeadObjective(cfg, s), s.elapsed)
  }

  /** How many events that execution logs: the result, and a pause if it ends in one. */
  function Logged(cfg: Config, env: Env, s: State): nat
    requires |s.completed| < |cfg.order|
  {
    var a := AttemptAt(env, s, HeadObjective(cfg, s));
    if a.GateOnly() || (a.Allowed() && a.verdict == ManualReview) then 2 else 1
  }

  lemma LoopBegins(cfg: Config, env: Env, b: State, base: real) returns (more: seq<State>)
    requires ValidConfig(cfg) && ValidEnv(env) && Checkpointed(cfg, b) && b.status == Running
    requires ExecutesNext(cfg, env, b, 0, base)
    ensures var o := HeadObjective(cfg, b);
      Loop(cfg, env, b, 0, 0, base).saves == [Marked(b, o), Executed(cfg, env, b, o, base)] + more
  {
    hide Inv, ValidConfig, ValidEnv, Executed, DenialFor, FuzzingStopped, LockoutPaused, PreExecutionStopped;
    RunningFacts(cfg, b);
    LoopSkips(cfg, env, b, 0, 0, base);
    var n := |b.completed|;
    PendingPosition(cfg, b, n);
    var v := Visit(cfg, env, b, cfg.order[n], base);
    assert v.saves == [Marked(b, cfg.order[n]), Executed(cfg, env, b, cfg.order[n], base)];
    if v.s.status == Running {
      more := Loop(cfg, env, v.s, n + 1, 1, base).saves;
    } else {
      more := [];
    }
  }

  lemma ExecutedGrows(cfg: Config, env: Env, s: State, o: Objective, base: real)
    ensures var a := AttemptAt(env, s, o); var t := Executed(cfg, env, s, o, base);
      && s.events <= t.events
      && |t.events| == |s.events| + if a.GateOnly() || (a.Allowed() && a.verdict == ManualReview) then 2 else 1
  {
    hide Sealed, LastHash, Remove;
    assert AttemptAt(env, Marked(s, o), o) == AttemptAt(env, s, o);
  }

  lemma BegunSame(cfg: Config, env: Env, s: State)
    ensures var b := Begun(cfg, env, s);
      && b.completed == s.completed && b.pending == s.pending && b.elapsed == s.elapsed && b.status == Running
      && b.nextIteration == s.nextIteration && b.reviewed == s.reviewed && s.events <= b.events
      && |b.events| == |s.events| + Opening(s)
  {
    hide Sealed, LastHash;
  }

  /** The events a run from s opens with. */
  function Opening(s: State): nat {
    (if s.events == [] then 1 else 0) + (if s.status == ReadyToResume then 1 else 0)
  }

  /** The writes of a run that executes: opening events, two saves, the events of the execution, its save. */
  lemma RunBegins(cfg: Config, env: Env, s: State) returns (rest: seq<Write>)
    requires ValidConfig(cfg) && ValidEnv(env) && Inv(cfg, s) && Executable(s.status)
    requires ExecutesNext(cfg, env, s, 0, s.elapsed)
    ensures var b, m, t := Begun(cfg, env, s), FirstMarked(cfg, env, s), FirstExecuted(cfg, env, s);
      && s.events <= b.events == m.events <= t.events && |t.events| == |b.events| + Logged(cfg, env, s)
      && Writes(|s.events|, Run(cfg, env, s)) == Layout(|s.events|, b, m, t) + rest
  {
    hide Inv, ValidConfig, ValidEnv, Executed, LetThrough, Loop, Begun, Finished, Layout, Writes;
    BegunKeeps(cfg, env, s);
    BegunDecides(cfg, env, s);
    BegunSame(cfg, env, s);
    var b, m, t := Begun(cfg, env, s), FirstMarked(cfg, env, s), FirstExecuted(cfg, env, s);
    ExecutedGrows(cfg, env, b, HeadObjective(cfg, b), b.elapsed);
    var more := LoopBegins(cfg, env, b, b.elapsed);
    var p := Loop(cfg, env, b, 0, 0, b.elapsed);
    var later := more + [Finished(cfg, env, p.s, b.elapsed)];
    assert Run(cfg, env, s) == [b, m, t] + later;
    rest := Writes(|t.events|, later);
    ThreeSaves(|s.events|, b, m, t, later);
  }

  function Layout(logged: nat, b: State, m: State, t: State): seq<Write>
    requires logged <= |b.events| <= |t.events|
  {
    Appends(b.events[logged..]) + [SaveCheckpoint(b)] + [SaveCheckpoint(m)]
    + Appends(t.events[|b.events|..]) + [SaveCheckpoint(t)]
  }

  lemma {:induction false} ThreeSaves(logged: nat, b: State, m: State, t: State, later: seq<State>)
    requires logged <= |b.events| && m.events == b.events && b.events <= t.events
    ensures Writes(logged, [b, m, t] + later) == Layout(logged, b, m, t) + Writes(|t.events|, later)
  {
    hide Writes;
    var all := [b, m, t] + later;
    assert all[1..] == [m, t] + later && all[1..][1..] == [t] + later && all[1..][1..][1..] == later;
    OneSaveFirst(logged, all);
    OneSaveFirst(|b.events|, all[1..]);
    OneSaveFirst(|m.events|, all[1..][1..]);
    assert Appends(m.events[|b.events|..]) == [];
  }

  lemma {:induction false} OneSaveFirst(logged: nat, saves: seq<State>)
    requires saves != [] && logged <= |saves[0].events|
    ensures Writes(logged, saves) ==
      Appends(saves[0].events[logged..]) + [SaveCheckpoint(saves[0])] + Writes(|saves[0].events|, saves[1..])
  {
  }

  // ----- Cutting the run inside the execution -----

  /** Any part of the layout from the save that marks the objective up to its last event. */
  lemma {:induction false} PrefixApplies(w: Workspace, b: State, m: State, t: State, rest: seq<Write>, j: nat)
    requires w.log <= b.events && m.events == b.events && b.events <= t.events && j <= |t.events| - |b.events|
    ensures var n := |b.events| - |w.log| + 2 + j;
      && n < |Layout(|w.log|, b, m, t) + rest|
      && ApplyAll(w, (Layout(|w.log|, b, m, t) + rest)[..n]) == Workspace(t.events[..|b.events| + j], Some(m))
  {
    hide ApplyAll;
    var opening, results := Appends(b.events[|w.log|..]), Appends(t.events[|b.events|..]);
    var first := opening + [SaveCheckpoint(b)];
    var writes := Layout(|w.log|, b, m, t) + rest;
    assert writes[..|opening| + 2 + j] == (first + [SaveCheckpoint(m)]) + results[..j];
    BatchApplies(w, b);
    ApplySplit(w, first, [SaveCheckpoint(m)]);
    OneSave(Workspace(b.events, Some(b)), m);
    ApplySplit(w, first + [SaveCheckpoint(m)], results[..j]);
    AppendsApply(Workspace(b.events, Some(m)), t.events[|b.events|..], j);
    assert b.events + t.events[|b.events|..][..j] == t.events[..|b.events| + j];
  }

  lemma OneSave(w: Workspace, s: State)
    ensures ApplyAll(w, [SaveCheckpoint(s)]) == Workspace(w.log, Some(s))
  {
    var one := [SaveCheckpoint(s)];
    assert one[1..] == [];
  }

  /** From a settled workspace, a run that would execute the first pending objective. */
  ghost predicate Executing(cfg: Config, w: Workspace, env: Env) {
    && ValidEnv(env) && ClockForward(env) && Settled(cfg, w) && Executable(Loaded(cfg, w).status)
    && ExecutesNext(cfg, env, Loaded(cfg, w), 0, Loaded(cfg, w).elapsed)
  }

  /** That run cut off j writes after the save that marks the objective current. */
  ghost function CutRun(cfg: Config, w: Workspace, env: Env, j: nat): Workspace {
    Step(cfg, w, Action(RunCall(w, env), Opening(Loaded(cfg, w)) + 2 + j))
  }

  /**
   The cut run leaves the marking checkpoint and j events beyond it: none, the result, or the
   result and the pause.
   */
  lemma CutInExecution(cfg: Config, w: Workspace, env: Env, j: nat)
    requires ValidConfig(cfg) && Executing(cfg, w, env) && j <= Logged(cfg, env, Loaded(cfg, w))
    ensures var m := FirstMarked(cfg, env, Loaded(cfg, w)); var left := CutRun(cfg, w, env, j);
      left.checkpoint == Some(m) && m.events <= left.log && |left.log| == |m.events| + j
  {
    hide Inv, LogSafe, InStep, ValidConfig, ValidEnv, ClockForward;
    hide Run, Writes, LetThrough, Begun, Executed, LogMatches, Layout;
    var s := Loaded(cfg, w);
    LoadedKeeps(cfg, w);
    SettledRun(cfg, w, env);
    BegunSame(cfg, env, s);
    var rest := RunBegins(cfg, env, s);
    PrefixApplies(w, Begun(cfg, env, s), FirstMarked(cfg, env, s), FirstExecuted(cfg, env, s), rest, j);
  }

  /** Marking an objective changes nothing the loop decides by. */
  lemma MarkDecides(cfg: Config, env: Env, again: Env, s: State)
    requires |s.completed| < |cfg.order|
    ensures var m := FirstMarked(cfg, env, s);
      && m.elapsed == s.elapsed && m.pending == s.pending
      && m.completed == s.completed && m.nextIteration == s.nextIteration
      && (ExecutesNext(cfg, again, m, 0, m.elapsed) <==> ExecutesNext(cfg, again, s, 0, s.elapsed))
  {
    hide Sealed, LastHash, Denial;
  }

  lemma MarkedHead(cfg: Config, env: Env, s: State)
    requires ValidConfig(cfg) && ValidEnv(env) && Inv(cfg, s) && Executable(s.status)
    requires ExecutesNext(cfg, env, s, 0, s.elapsed)
    ensures var m := FirstMarked(cfg, env, s);
      && Checkpointed(cfg, m) && m.status == Running && m.events == Begun(cfg, env, s).events
      && HeadObjective(cfg, s).id == s.pending[0] && m.current == Some(s.pending[0])
  {
    hide Inv, ValidConfig, ValidEnv, Begun, LetThrough;
    BegunKeeps(cfg, env, s);
    RunningFacts(cfg, s);
    HeadFacts(cfg, s);
    MarkKeeps(cfg, Begun(cfg, env, s), HeadObjective(cfg, s));
  }

  /** What a run from s logs and where it ends, in terms of the state t it ends in. */
  ghost predicate RetriedFrom(env: Env, s: State, t: State, n: nat, done: nat) {
    && RunEndsAfter(env, s, t, n, done)
    && Results(t.events) == Results(s.events) + Consecutive(s.nextIteration, s.pending, n)
  }

  lemma RetryTransfers(env: Env, s: State, m: State, t: State, n: nat, done: nat)
    requires RetriedFrom(env, m, t, n, done)
    requires m.pending == s.pending && m.completed == s.completed && m.nextIteration == s.nextIteration
    requires Results(m.events) == Results(s.events)
    ensures RetriedFrom(env, s, t, n, done)
  {
    hide Results;
  }

  /**
   A crash between the save that marks an objective current and its result: the next run is
   accepted, and logs its results as if from the checkpoint before; so the same objective is
   retried under the same iteration if and only if that run would have executed it from there.
   */
  lemma InterruptedIterationRetried(cfg: Config, w: Workspace, env: Env, again: Env) returns (n: nat, done: nat)
    requires ValidConfig(cfg) && Executing(cfg, w, env) && ValidEnv(again)
    ensures var left := CutRun(cfg, w, env, 0); var s := Loaded(cfg, w);
      && left.checkpoint.Some? && Perform(cfg, left, ResumeRun(again)).Ok?
      && left.checkpoint.value.current == Some(s.pending[0])
      && RetriedFrom(again, s, RunResult(cfg, again, left.checkpoint.value), n, done)
      && (n > 0 <==> ExecutesNext(cfg, again, s, 0, s.elapsed))
  {
    hide Inv, LogSafe, InStep, ValidConfig, ValidEnv, ClockForward, Run, RunResult, Writes, LetThrough, Executed;
    hide LogMatches, Results, Consecutive, RunEndsAfter, CutRun, FirstMarked;
    var s := Loaded(cfg, w);
    LoadedKeeps(cfg, w);
    CutInExecution(cfg, w, env, 0);
    var m := FirstMarked(cfg, env, s);
    assert CutRun(cfg, w, env, 0) == Workspace(m.events, Some(m));
    MarkedHead(cfg, env, s);
    MarkDecides(cfg, env, again, s);
    SettledMark(cfg, m, again);
    BegunResults(cfg, env, s);
    n, done := RunExecutesInOrder(cfg, again, m);
    RetryTransfers(again, s, m, RunResult(cfg, again, m), n, done);
  }

  lemma SettledMark(cfg: Config, m: State, again: Env)
    requires ValidConfig(cfg) && Checkpointed(cfg, m) && m.status == Running
    ensures Perform(cfg, Workspace(m.events, Some(m)), ResumeRun(again)).Ok?
  {
    hide Inv, LogMatches, Writes, Run;
    LogAccepted(cfg, m);
    KnownObjectives(cfg, m);
  }

  /** After any history: an iteration found interrupted, with nothing logged for it, is retried as it was. */
  lemma InterruptedHistoryRetried(cfg: Config, actions: seq<Action>, again: Env) returns (n: nat, done: nat)
    requires ValidConfig(cfg) && ValidHistory(actions) && ValidEnv(again)
    requires var w := History(cfg, actions);
      w.checkpoint.Some? && w.checkpoint.value.status == Running && w.checkpoint.value.current.Some?
    requires History(cfg, actions).log == History(cfg, actions).checkpoint.value.events
    ensures var w := History(cfg, actions); var s := w.checkpoint.value;
      && Perform(cfg, w, ResumeRun(again)).Ok?
      && s.pending != [] && s.current == Some(s.pending[0])
      && RetriedFrom(again, s, RunResult(cfg, again, s), n, done)
      && (n > 0 <==> ExecutesNext(cfg, again, s, 0, s.elapsed))
  {
    hide History, LogSafe, LogExtends, LogMatches, Run, RunResult, Writes, LetThrough, Results, Consecutive, Inv;
    hide ValidConfig, ValidEnv, RunEndsAfter;
    HistorySound(cfg, actions);
    var s := History(cfg, actions).checkpoint.value;
    RunningFacts(cfg, s);
    SettledMark(cfg, s, again);
    n, done := RunExecutesInOrder(cfg, again, s);
  }

  // ----- A log ahead of its checkpoint -----

  ghost predicate LogAhead(w: Workspace) {
    w.checkpoint.Some? && w.checkpoint.value.events < w.log
  }

  /** Every run and review is refused; an operator stop is accepted and leaves a log that does not verify. */
  lemma {:induction false} LogAheadRefused(cfg: Config, w: Workspace, again: Env, r: Review, stamp: string)
    requires ValidConfig(cfg) && Sound(cfg, w) && LogAhead(w) && w.checkpoint.value.status == Running
    ensures Perform(cfg, w, FreshRun(again)).Err? && Perform(cfg, w, ResumeRun(again)) == Err(LogMismatch)
    ensures Perform(cfg, w, Decide(r)).Err? && Perform(cfg, w, Halt(stamp)).Ok?
    ensures var stopped := ApplyAll(w, Perform(cfg, w, Halt(stamp)).value);
      stopped.checkpoint.Some? && !LogMatches(cfg, stopped.checkpoint.value, stopped.log)
  {
    hide LogSafe, Inv, StateMatchesLog, Run, Writes, ApplyReview, OperatorStopped, LogExtends;
    KnownObjectives(cfg, w.checkpoint.value);
    CountMatches(cfg, w.checkpoint.value, w.log);
    HaltVerifiesExactly(cfg, w, stamp);
  }

  /**
   A crash after the result was logged, with or without its pause, and before the save: the log
   runs ahead by one event, or by two if the execution pauses.
   */
  lemma CrashLeavesLogAhead(cfg: Config, w: Workspace, env: Env, j: nat)
    requires ValidConfig(cfg) && Executing(cfg, w, env) && 1 <= j <= Logged(cfg, env, Loaded(cfg, w))
    ensures var left := CutRun(cfg, w, env, j);
      && Sound(cfg, left) && LogAhead(left) && left.checkpoint.value.status == Running
      && |left.log| == |left.checkpoint.value.events| + j
  {
    hide Inv, LogSafe, InStep, ValidConfig, ValidEnv, ClockForward, LetThrough, Step, Sound, FirstMarked;
    var s := Loaded(cfg, w);
    LoadedKeeps(cfg, w);
    SettledSound(cfg, w);
    CutInExecution(cfg, w, env, j);
    MarkedHead(cfg, env, s);
    StepSound(cfg, w, Action(RunCall(w, env), Opening(s) + 2 + j));
  }
}
