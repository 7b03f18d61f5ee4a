/** What holds of the workspace after any history of calls, refusals and crashes. */
module CrashSafety {
  import opened Basics
  import opened Objectives
  import opened EventLog
  import opened CampaignState
  import opened CampaignSpec
  import opened CampaignInvariant
  import opened CampaignSteps
  import opened CampaignRuns
  import opened Disk

  /** Events of a log tail that are not operator stops. */
  function Plain(tail: seq<Event>): nat {
    if tail == [] then 0
    else Plain(tail[..|tail| - 1]) + if tail[|tail| - 1].body.draft.kind == OperatorStop then 0 else 1
  }

  /** The log is the checkpoint's events and at most two more, operator stops not counted. */
  ghost predicate LogExtends(events: seq<Event>, log: seq<Event>) {
    events <= log && Plain(log[|events|..]) <= 2
  }

  ghost predicate Sound(cfg: Config, w: Workspace) {
    && LogSafe(cfg, w.log)
    && (w.checkpoint.Some? ==>
          var s := w.checkpoint.value;
          Checkpointed(cfg, s) && (s.status != StoppedByOperator ==> LogExtends(s.events, w.log)))
  }

  lemma {:induction false} PlainBound(tail: seq<Event>)
    ensures Plain(tail) <= |tail|
  {
    if tail != [] {
      PlainBound(tail[..|tail| - 1]);
    }
  }

  /** Nothing logged beyond the checkpoint. */
  ghost predicate InStep(cfg: Config, w: Workspace) {
    && LogSafe(cfg, w.log)
    && match w.checkpoint
       case None => w.log == []
       case Some(s) => Checkpointed(cfg, s) && s.events == w.log
  }

  lemma {:induction false} AppendsApply(w: Workspace, events: seq<Event>, n: nat)
    requires n <= |events|
    ensures ApplyAll(w, Appends(events)[..n]) == Workspace(w.log + events[..n], w.checkpoint)
    decreases n
  {
    if n > 0 {
      var rest := Appends(events)[..n][1..];
      assert rest == Appends(events[1..])[..n - 1];
      AppendsApply(Apply(w, AppendEvent(events[0])), events[1..], n - 1);
      assert w.log + [events[0]] + events[1..][..n - 1] == w.log + events[..n];
    } else {
      assert w.log + events[..0] == w.log;
    }
  }

  lemma {:induction false} ApplySplit(w: Workspace, a: seq<Write>, b: seq<Write>)
    ensures ApplyAll(w, a + b) == ApplyAll(ApplyAll(w, a), b)
    decreases a
  {
    if a == [] {
      assert a + b == b;
    } else {
      assert (a + b)[1..] == a[1..] + b;
      ApplySplit(Apply(w, a[0]), a[1..], b);
    }
  }

  /** The appends and the save of one checkpoint, completed. */
  lemma {:induction false} BatchApplies(w: Workspace, s: State)
    requires w.log <= s.events
    ensures ApplyAll(w, Appends(s.events[|w.log|..]) + [SaveCheckpoint(s)]) == Workspace(s.events, Some(s))
  {
    var unlogged := s.events[|w.log|..];
    AppendsApply(w, unlogged, |unlogged|);
    assert Appends(unlogged)[..|unlogged|] == Appends(unlogged) && unlogged[..|unlogged|] == unlogged;
    ApplySplit(w, Appends(unlogged), [SaveCheckpoint(s)]);
    assert w.log + unlogged == s.events;
    var one := [SaveCheckpoint(s)];
    assert one[1..] == [];
  }

  /** A crash among the appends before a save leaves the old checkpoint and a longer log. */
  lemma {:induction false} CutBatch(cfg: Config, w: Workspace, s: State, n: nat)
    requires InStep(cfg, w) && Grows(w.log, s.events, 2) && LogSafe(cfg, s.events) && n <= |s.events| - |w.log|
    ensures Sound(cfg, ApplyAll(w, Appends(s.events[|w.log|..])[..n]))
  {
    hide Checkpointed, LogSafe;
    var unlogged := s.events[|w.log|..];
    AppendsApply(w, unlogged, n);
    assert w.log + unlogged[..n] == s.events[..|w.log| + n];
    LogSafePrefix(cfg, s.events, |w.log| + n);
    PlainBound(unlogged[..n]);
    if w.checkpoint.Some? {
      var log := w.log + unlogged[..n];
      assert log[|w.checkpoint.value.events|..] == unlogged[..n];
    }
  }

  lemma CheckpointedLog(cfg: Config, s: State)
    requires Checkpointed(cfg, s)
    ensures LogSafe(cfg, s.events)
  {
  }

  /** Any prefix of the writes behind committed checkpoints leaves a sound workspace. */
  lemma {:induction false} CutAnywhere(cfg: Config, w: Workspace, saves: seq<State>, n: nat)
    requires InStep(cfg, w) && Commits(cfg, w.log, saves) && n <= |Writes(|w.log|, saves)|
    ensures Sound(cfg, ApplyAll(w, Writes(|w.log|, saves)[..n]))
    decreases saves
  {
    hide Checkpointed, LogSafe;
    if saves == [] {
      assert w.checkpoint.Some? ==> w.log[|w.log|..] == [];
    } else {
      var s := saves[0];
      CheckpointedLog(cfg, s);
      var unlogged := s.events[|w.log|..];
      var batch := Appends(unlogged) + [SaveCheckpoint(s)];
      var later := Writes(|s.events|, saves[1..]);
      assert Writes(|w.log|, saves) == batch + later;
      if n <= |unlogged| {
        assert (batch + later)[..n] == Appends(unlogged)[..n];
        CutBatch(cfg, w, s, n);
      } else {
        assert (batch + later)[..n] == batch + later[..n - |batch|];
        ApplySplit(w, batch, later[..n - |batch|]);
        BatchApplies(w, s);
        CutAnywhere(cfg, Workspace(s.events, Some(s)), saves[1..], n - |batch|);
      }
    }
  }

  // ----- When the log is accepted -----

  /** Short of an operator stop, a checkpoint's log verifies exactly when nothing was logged after it. */
  lemma VerifiedMeansInStep(cfg: Config, w: Workspace)
    requires Sound(cfg, w) && w.checkpoint.Some? && w.checkpoint.value.status != StoppedByOperator
    ensures LogMatches(cfg, w.checkpoint.value, w.log) <==> w.log == w.checkpoint.value.events
    ensures w.log == w.checkpoint.value.events ==> InStep(cfg, w)
  {
    hide LogSafe;
    var s := w.checkpoint.value;
    StateMatchesOwnLog(cfg.hash, s.events);
    if |w.log| == |s.events| {
      assert w.log == s.events;
    }
  }

  // ----- Each call -----

  lemma KnownObjectives(cfg: Config, s: State)
    requires ValidConfig(cfg) && Inv(cfg, s)
    ensures Elements(s.completed + s.pending + s.skipped + s.stopped) <= Elements(Ids(cfg.objectives))
  {
    hide Metered, Recorded;
    CanonicalIsTopological(ById(cfg.objectives), cfg.order);
    forall x | x in s.completed + s.pending + s.skipped + s.stopped ensures x in Ids(cfg.objectives) {
      assert x in Ids(cfg.order);
      assert x in Elements(Ids(cfg.order));
      assert ById(cfg.objectives)[x] in cfg.objectives;
      var i :| 0 <= i < |cfg.objectives| && cfg.objectives[i] == ById(cfg.objectives)[x];
      assert Ids(cfg.objectives)[i] == x;
    }
  }

  lemma {:induction false} RunSound(cfg: Config, w: Workspace, env: Env, s: State, n: nat)
    requires ValidConfig(cfg) && ValidEnv(env) && InStep(cfg, w)
    requires Inv(cfg, s) && s.events == w.log && Executable(s.status)
    requires n <= |Writes(|w.log|, Run(cfg, env, s))|
    ensures Sound(cfg, ApplyAll(w, Writes(|w.log|, Run(cfg, env, s))[..n]))
  {
    hide Inv, InStep, ValidConfig, ValidEnv, Commits, Sound, Run;
    RunKeeps(cfg, env, s);
    CutAnywhere(cfg, w, Run(cfg, env, s), n);
  }

  lemma {:induction false} ReviewSound(cfg: Config, w: Workspace, s: State, r: Review, n: nat)
    requires ValidConfig(cfg) && InStep(cfg, w) && w.checkpoint == Some(s)
    requires s.status == Paused && s.current == Some(r.objective)
    requires s.review.Some? && n <= |Writes(|w.log|, [ApplyReview(cfg, s, r)])|
    ensures Sound(cfg, ApplyAll(w, Writes(|w.log|, [ApplyReview(cfg, s, r)])[..n]))
  {
    hide Inv, LogSafe, ValidConfig, ApplyReview, Sound;
    ReviewKeeps(cfg, s, r);
    CommitsOne(cfg, s.events, ApplyReview(cfg, s, r));
    CutAnywhere(cfg, w, [ApplyReview(cfg, s, r)], n);
  }

  lemma HaltWrites(cfg: Config, s: State, stamp: string) returns (e: Event)
    ensures e.body.draft.kind == OperatorStop
    ensures Writes(|s.events|, [OperatorStopped(cfg, s, stamp)])
         == [AppendEvent(e), SaveCheckpoint(OperatorStopped(cfg, s, stamp))]
    ensures OperatorStopped(cfg, s, stamp).status == StoppedByOperator
  {
    var t := OperatorStopped(cfg, s, stamp);
    e := t.events[|s.events|];
    assert t.events == s.events + [e];
    assert t.events[|s.events|..] == [e];
  }

  lemma StopExtends(events: seq<Event>, log: seq<Event>, e: Event)
    requires LogExtends(events, log) && e.body.draft.kind == OperatorStop
    ensures LogExtends(events, log + [e])
  {
    var tail := log[|events|..];
    assert (log + [e])[|events|..] == tail + [e];
    assert (tail + [e])[..|tail|] == tail;
  }

  /** An operator stop does not look at the log: it may append after a crash's leftovers. */
  lemma {:induction false} HaltSound(cfg: Config, w: Workspace, s: State, stamp: string, n: nat)
    requires ValidConfig(cfg) && Sound(cfg, w) && w.checkpoint == Some(s) && s.status !in {Completed, StoppedByOperator}
    requires n <= |Writes(|s.events|, [OperatorStopped(cfg, s, stamp)])|
    ensures Sound(cfg, ApplyAll(w, Writes(|s.events|, [OperatorStopped(cfg, s, stamp)])[..n]))
  {
    hide Inv, LogSafe, ValidConfig, LogExtends, OperatorStopped, Writes, Grows;
    OperatorStopKeeps(cfg, s, stamp);
    var e := HaltWrites(cfg, s, stamp);
    var t := OperatorStopped(cfg, s, stamp);
    SnocQuiet(cfg, w.log, e);
    StopExtends(s.events, w.log, e);
    var writes := [AppendEvent(e), SaveCheckpoint(t)];
    if n == 1 {
      var one := [AppendEvent(e)];
      assert writes[..1] == one && one[1..] == [];
      assert ApplyAll(w, one) == Workspace(w.log + [e], Some(s));
    } else if n == 2 {
      var one := [SaveCheckpoint(t)];
      assert writes[..2] == writes && writes[1..] == one && one[1..] == [];
      assert ApplyAll(Apply(w, writes[0]), one) == Workspace(w.log + [e], Some(t));
    } else {
      assert writes[..0] == [];
    }
  }

  /**
   An operator stop after a crash: the stopped checkpoint's log verifies exactly if the crash had
   left nothing in the log beyond the old checkpoint.
   */
  lemma {:induction false} HaltVerifiesExactly(cfg: Config, w: Workspace, stamp: string)
    requires ValidConfig(cfg) && Sound(cfg, w) && Perform(cfg, w, Halt(stamp)).Ok?
    ensures var t := ApplyAll(w, Perform(cfg, w, Halt(stamp)).value);
      && t.checkpoint == Some(OperatorStopped(cfg, w.checkpoint.value, stamp))
      && (LogMatches(cfg, t.checkpoint.value, t.log) <==> w.log == w.checkpoint.value.events)
  {
    hide LogSafe, ValidConfig, OperatorStopped, Writes, StateMatchesLog, Shape, Metered, PendingUntouched, Plain;
    var s := w.checkpoint.value;
    OperatorStopKeeps(cfg, s, stamp);
    var e := HaltWrites(cfg, s, stamp);
    var t := OperatorStopped(cfg, s, stamp);
    TwoWrites(w, e, t);
    assert t.events == s.events + [e] by { HaltEvents(cfg, s, stamp, e); }
    StateMatchesOwnLog(cfg.hash, t.events);
    CountMatches(cfg, t, w.log + [e]);
  }

  lemma TwoWrites(w: Workspace, e: Event, t: State)
    ensures ApplyAll(w, [AppendEvent(e), SaveCheckpoint(t)]) == Workspace(w.log + [e], Some(t))
  {
    var two, one := [AppendEvent(e), SaveCheckpoint(t)], [SaveCheckpoint(t)];
    assert two[1..] == one && one[1..] == [];
    assert ApplyAll(Apply(w, two[0]), one) == Workspace(w.log + [e], Some(t));
  }

  lemma HaltEvents(cfg: Config, s: State, stamp: string, e: Event)
    requires Writes(|s.events|, [OperatorStopped(cfg, s, stamp)])
          == [AppendEvent(e), SaveCheckpoint(OperatorStopped(cfg, s, stamp))]
    ensures OperatorStopped(cfg, s, stamp).events == s.events + [e]
  {
    var t := OperatorStopped(cfg, s, stamp);
    assert t.events[|s.events|..] == [t.events[|s.events|]];
    assert Writes(|s.events|, [t])[0] == AppendEvent(t.events[|s.events|]);
  }

  lemma CountMatches(cfg: Config, t: State, log: seq<Event>)
    ensures LogMatches(cfg, t, log) ==> |log| == |t.events|
  {
  }

  /** Every call, cut anywhere or completed or refused, leaves a sound workspace. */
  lemma StepSound(cfg: Config, w: Workspace, a: Action)
    requires ValidConfig(cfg) && Sound(cfg, w) && ValidCall(a.call)
    ensures Sound(cfg, Step(cfg, w, a))
  {
    hide Inv, LogSafe, ValidConfig, LogExtends, StateMatchesLog, ApplyReview, OperatorStopped, Run, Writes;
    var r := Perform(cfg, w, a.call);
    if r.Ok? {
      var n := if a.upTo < |r.value| then a.upTo else |r.value|;
      assert r.value[..|r.value|] == r.value;
      match a.call
      case FreshRun(env) =>
        InitialKeeps(cfg);
        RunSound(cfg, w, env, InitialState(cfg), n);
      case ResumeRun(env) =>
        VerifiedMeansInStep(cfg, w);
        RunSound(cfg, w, env, w.checkpoint.value, n);
      case Decide(review) =>
        VerifiedMeansInStep(cfg, w);
        ReviewSound(cfg, w, w.checkpoint.value, review, n);
      case Halt(stamp) =>
        HaltSound(cfg, w, w.checkpoint.value, stamp, n);
    }
  }

  ghost predicate ValidHistory(actions: seq<Action>) {
    forall i :: 0 <= i < |actions| ==> ValidCall(actions[i].call)
  }

  /** After any history at all. */
  lemma {:induction false} HistorySound(cfg: Config, actions: seq<Action>)
    requires ValidConfig(cfg) && ValidHistory(actions)
    ensures Sound(cfg, History(cfg, actions))
    decreases actions
  {
    hide Sound, Step, ValidConfig;
    if actions == [] {
      EmptySound(cfg);
    } else {
      HistorySound(cfg, actions[..|actions| - 1]);
      StepSound(cfg, History(cfg, actions[..|actions| - 1]), actions[|actions| - 1]);
    }
  }

  lemma EmptySound(cfg: Config)
    ensures Sound(cfg, Workspace([], None))
  {
  }

  // ----- Elapsed time on disk -----

  ghost predicate Timed(w: Workspace) {
    w.checkpoint.Some? ==> w.checkpoint.value.elapsed >= 0.0
  }

  /** Every checkpoint among these writes satisfies p. */
  ghost predicate SavesMeet(writes: seq<Write>, p: State -> bool) {
    forall i :: 0 <= i < |writes| && writes[i].SaveCheckpoint? ==> p(writes[i].state)
  }

  lemma {:induction false} ApplyMeets(w: Workspace, writes: seq<Write>, p: State -> bool)
    requires (w.checkpoint.Some? ==> p(w.checkpoint.value)) && SavesMeet(writes, p)
    ensures ApplyAll(w, writes).checkpoint.Some? ==> p(ApplyAll(w, writes).checkpoint.value)
    decreases writes
  {
    if writes != [] {
      ApplyMeets(Apply(w, writes[0]), writes[1..], p);
    }
  }

  lemma {:induction false} WritesMeet(logged: nat, saves: seq<State>, p: State -> bool)
    requires forall i :: 0 <= i < |saves| ==> p(saves[i])
    ensures SavesMeet(Writes(logged, saves), p)
    decreases saves
  {
    if saves != [] {
      WritesMeet(|saves[0].events|, saves[1..], p);
    }
  }

  /** The checkpoints a call saves if it is accepted. */
  ghost function SavesOf(cfg: Config, w: Workspace, c: Call): seq<State>
    requires Perform(cfg, w, c).Ok?
  {
    match c
    case FreshRun(env) => Run(cfg, env, InitialState(cfg))
    case ResumeRun(env) => Run(cfg, env, w.checkpoint.value)
    case Decide(review) => [ApplyReview(cfg, w.checkpoint.value, review)]
    case Halt(stamp) => [OperatorStopped(cfg, w.checkpoint.value, stamp)]
  }

  /** A property of the old checkpoint and of all a call saves holds of the checkpoint after it, cut or not. */
  lemma StepMeets(cfg: Config, w: Workspace, a: Action, p: State -> bool)
    requires w.checkpoint.Some? ==> p(w.checkpoint.value)
    requires Perform(cfg, w, a.call).Ok? ==>
      forall i :: 0 <= i < |SavesOf(cfg, w, a.call)| ==> p(SavesOf(cfg, w, a.call)[i])
    ensures Step(cfg, w, a).checkpoint.Some? ==> p(Step(cfg, w, a).checkpoint.value)
  {
    hide Run, Writes, LogMatches, ApplyReview, OperatorStopped;
    var r := Perform(cfg, w, a.call);
    if r.Ok? {
      WritesMeet(if a.call.FreshRun? then 0 else |w.checkpoint.value.events|, SavesOf(cfg, w, a.call), p);
      ApplyMeets(w, if a.upTo < |r.value| then r.value[..a.upTo] else r.value, p);
    }
  }

  lemma StepTimed(cfg: Config, w: Workspace, a: Action)
    requires Timed(w) && ValidCall(a.call)
    ensures Timed(Step(cfg, w, a))
  {
    hide Run, Writes, ValidEnv, ClockForward, LogMatches, Step;
    if Perform(cfg, w, a.call).Ok? && (a.call.FreshRun? || a.call.ResumeRun?) {
      RunTimed(cfg, a.call.env, if a.call.FreshRun? then InitialState(cfg) else w.checkpoint.value);
    }
    StepMeets(cfg, w, a, (s: State) => s.elapsed >= 0.0);
  }

  lemma {:induction false} HistoryTimed(cfg: Config, actions: seq<Action>)
    requires ValidHistory(actions)
    ensures Timed(History(cfg, actions))
    decreases actions
  {
    hide Step;
    if actions != [] {
      HistoryTimed(cfg, actions[..|actions| - 1]);
      StepTimed(cfg, History(cfg, actions[..|actions| - 1]), actions[|actions| - 1]);
    }
  }

  // ----- What soundness gives a reader -----

  /**
   After any history, which calls are accepted.  With a checkpoint, short of an operator stop: the
   log is its events or extends them by at most two; a run is accepted exactly in the executable
   statuses and with the log in step; a review exactly on a paused checkpoint with the log in step,
   when it names that file, campaign, objective and operator and is not dated ahead; an operator stop
   of everything not completed or already so stopped.  Without one: nothing but a fresh run over an
   empty log, so events left by a crash before the first save refuse everything.
   */
  lemma {:induction false} CrashIsRefusedOrResumed(cfg: Config, actions: seq<Action>, env: Env, r: Review,
                                                   stamp: string)
    requires ValidConfig(cfg) && ValidHistory(actions)
    ensures var w := History(cfg, actions);
      && (w.checkpoint.None? ==>
            && (Perform(cfg, w, FreshRun(env)).Ok? <==> w.log == [])
            && Perform(cfg, w, ResumeRun(env)).Err? && Perform(cfg, w, Decide(r)).Err?
            && Perform(cfg, w, Halt(stamp)).Err?)
      && (w.checkpoint.Some? ==>
            var s := w.checkpoint.value;
            && (s.status != StoppedByOperator ==> LogExtends(s.events, w.log))
            && Perform(cfg, w, FreshRun(env)).Err?
            && (Perform(cfg, w, ResumeRun(env)).Ok? <==>
                  s.status in {Planned, Running, ReadyToResume} && w.log == s.events)
            && (Perform(cfg, w, Halt(stamp)).Ok? <==> s.status != Completed && s.status != StoppedByOperator)
            && (Perform(cfg, w, Decide(r)).Ok? <==>
                  && s.status == Paused && w.log == s.events && r.decidedAt <= r.handedInAt
                  && r.stateHash == cfg.identity.fileDigest(s) && r.campaign == cfg.identity.campaign
                  && s.pending != [] && r.objective == s.pending[0] && r.operator == cfg.identity.operator))
  {
    hide LogSafe, LogExtends, StateMatchesLog, ApplyReview, OperatorStopped, Run, Writes, History;
    HistorySound(cfg, actions);
    var w := History(cfg, actions);
    if w.checkpoint.Some? {
      var s := w.checkpoint.value;
      assert Checkpointed(cfg, s) by {
        hide Inv;
      }
      KnownObjectives(cfg, s);
      if s.status != StoppedByOperator {
        VerifiedMeansInStep(cfg, w);
      }
    }
  }

  /** What a refusal says is so: each error, in any sound workspace, names a check that fails there. */
  lemma RefusalsNamed(cfg: Config, w: Workspace, c: Call)
    requires ValidConfig(cfg) && Sound(cfg, w) && Perform(cfg, w, c).Err?
    ensures var error, s := Perform(cfg, w, c).error, w.checkpoint;
      match error
      case NoCheckpoint => !c.FreshRun? && s.None?
      case CheckpointExists => c.FreshRun? && s.Some?
      case LogExists => c.FreshRun? && s.None? && w.log != []
      case UnknownObjectives => false
      case StatusRefused => c.ResumeRun? && s.Some? && s.value.status !in {Planned, Running, ReadyToResume}
      case LogMismatch => (c.ResumeRun? || c.Decide?) && s.Some? && w.log != s.value.events
      case NotPaused => c.Decide? && s.Some? && s.value.status != Paused
      case FutureDecision => c.Decide? && c.review.decidedAt > c.review.handedInAt
      case StateHashWrong => c.Decide? && s.Some? && c.review.stateHash != cfg.identity.fileDigest(s.value)
      case CampaignWrong => c.Decide? && c.review.campaign != cfg.identity.campaign
      case ObjectiveWrong => c.Decide? && s.Some? && s.value.current != Some(c.review.objective)
      case OperatorWrong => c.Decide? && c.review.operator != cfg.identity.operator
      case NotStoppable => c.Halt? && s.Some? && s.value.status in {Completed, StoppedByOperator}
  {
    hide LogSafe, LogExtends, StateMatchesLog, ApplyReview, OperatorStopped, Run, Writes;
    if w.checkpoint.Some? {
      assert Checkpointed(cfg, w.checkpoint.value) by {
        hide Inv;
      }
      KnownObjectives(cfg, w.checkpoint.value);
      if w.checkpoint.value.status != StoppedByOperator {
        VerifiedMeansInStep(cfg, w);
      }
    }
  }

  /** After any history, each objective has at most one result beside its human-gate pause. */
  lemma {:induction false} NoSecondResult(cfg: Config, actions: seq<Action>, id: Id)
    requires ValidConfig(cfg) && ValidHistory(actions)
    ensures Count(History(cfg, actions).log, RunOf(id)) <= 1 && Count(History(cfg, actions).log, GateOf(id)) <= 1
    ensures Count(History(cfg, actions).log, AnyResult) <= cfg.limits.maxIterations
  {
    hide History;
    HistorySound(cfg, actions);
  }

  /** After any history, a logged result of an objective comes after the completion of all it depends on. */
  lemma {:induction false} DependenciesFirst(cfg: Config, actions: seq<Action>, j: nat, o: Objective, d: Id)
    requires ValidConfig(cfg) && ValidHistory(actions) && j < |History(cfg, actions).log|
    requires History(cfg, actions).log[j].body.draft.kind == ObjectiveResult
    requires History(cfg, actions).log[j].body.draft.objective == Some(o.id) && o in cfg.objectives && d in o.dependsOn
    ensures Justified(cfg, History(cfg, actions).log[..j], d)
  {
    hide History, Count, Justified;
    HistorySound(cfg, actions);
    var log := History(cfg, actions).log;
    assert DependenciesJustified(cfg, log, j);
    var o' :| o' in cfg.order && o'.id == o.id && forall d :: d in o'.dependsOn ==> Justified(cfg, log[..j], d);
    CanonicalIsTopological(ById(cfg.objectives), cfg.order);
    var i :| 0 <= i < |cfg.objectives| && cfg.objectives[i] == o;
    ByIdDetermined(cfg.objectives);
    assert o' == o;
  }

  /** Every checkpoint ever saved passes validation and keeps the schedule, the budgets and the provenance. */
  lemma {:induction false} CheckpointFacts(cfg: Config, actions: seq<Action>)
    requires ValidConfig(cfg) && ValidHistory(actions) && History(cfg, actions).checkpoint.Some?
    ensures var s := History(cfg, actions).checkpoint.value;
      && ValidIdentity(cfg.identity) && ValidState(s)
      && s.completed + s.stopped + s.pending == Ids(cfg.order) && |s.stopped| <= 1 && s.skipped == []
      && (s.status == Completed ==> s.completed == Ids(cfg.order))
      && (s.status in {Running, Paused, ReadyToResume} ==> s.stopped == [])
      && s.nextIteration - 1 <= cfg.limits.maxIterations + 2
      && s.minute == s.requests <= cfg.limits.campaignMaxRequests
      && s.requests <= cfg.limits.scopeMaxRequests && s.requests <= cfg.limits.requestsPerMinute
      && (forall id :: id in s.completed ==> Justified(cfg, s.events, id))
      && (s.operatorStop <==> s.status == StoppedByOperator)
  {
    hide History, LogSafe, LogExtends, Justified, ApprovalLogged, Count;
    HistorySound(cfg, actions);
    HistoryTimed(cfg, actions);
    InvariantPassesValidation(cfg, History(cfg, actions).checkpoint.value);
  }

  /** From an operator stop no entry point succeeds. */
  lemma OperatorStopIsFinal(cfg: Config, w: Workspace, c: Call)
    requires w.checkpoint.Some? && w.checkpoint.value.status == StoppedByOperator
    ensures Perform(cfg, w, c).Err?
  {
  }
}
