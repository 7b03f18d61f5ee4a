/**
 What an accepted review decision and an accepted operator stop leave in the workspace, field by
 field, and when a saved checkpoint carries the operator's stop.
 */
module HumanAnswers {
  import opened Basics
  import opened Objectives
  import opened EventLog
  import opened CampaignState
  import opened CampaignSpec
  import opened CampaignInvariant
  import opened CampaignRuns
  import opened Disk
  import opened CrashSafety
  import opened StepRefinement
  import opened RunReport

  /** The workspace after an accepted call that nothing cuts off. */
  ghost function After(cfg: Config, w: Workspace, c: Call): Workspace
    requires Perform(cfg, w, c).Ok?
  {
    ApplyAll(w, Perform(cfg, w, c).value)
  }

  /** One more event, nothing current, no review pending, the counters as they were. */
  ghost predicate Answered(s: State, t: State, stamp: string, d: Draft, note: StopNote) {
    && |t.events| == |s.events| + 1 && s.events <= t.events
    && t.events[|s.events|].body.draft == d && t.events[|s.events|].body.stamp == stamp
    && t.review.None? && t.current.None? && t.skipped == s.skipped && t.history == s.history + [note]
    && t.nextIteration == s.nextIteration && t.requests == s.requests && t.minute == s.minute
    && t.failures == s.failures && t.elapsed == s.elapsed && t.revision == s.revision + 1
  }

  lemma SealedSays(h: Hasher, events: seq<Event>, stamp: string, d: Draft)
    ensures Sealed(h, events, stamp, d).body.draft == d && Sealed(h, events, stamp, d).body.stamp == stamp
  {
  }

  lemma {:induction false} OneWrite(w: Workspace, s: State, t: State, e: Event)
    requires w.checkpoint == Some(s) && t.events == s.events + [e]
    ensures Writes(|s.events|, [t]) == [AppendEvent(e), SaveCheckpoint(t)]
    ensures ApplyAll(w, Writes(|s.events|, [t])) == Workspace(w.log + [e], Some(t))
  {
    assert t.events[|s.events|..] == [e];
    TwoWrites(w, e, t);
  }

  /**
   Where a decision takes the objective that awaits it.  Approved before execution: recorded as
   reviewed and still pending; approved after it: completed; either way ready to resume.  Denied:
   stopped, and the campaign with it, by condition and without an operator stop.  Stop campaign:
   stopped by the operator.
   */
  ghost predicate Moved(s: State, t: State, choice: ReviewChoice, phase: Phase)
    requires s.pending != []
  {
    match choice
    case Approved =>
      && t.status == ReadyToResume && !t.operatorStop && t.stopped == []
      && if phase == PreExecution then
           && s.pending[0] !in s.reviewed && t.reviewed == s.reviewed + [s.pending[0]]
           && t.pending == s.pending && t.completed == s.completed
         else
           && t.reviewed == s.reviewed
           && t.pending == s.pending[1..] && t.completed == s.completed + [s.pending[0]]
    case Denied =>
      && t.status == StoppedByCondition && !t.operatorStop && t.reviewed == s.reviewed
      && t.pending == s.pending[1..] && t.completed == s.completed && t.stopped == [s.pending[0]]
    case StopCampaign =>
      && t.status == StoppedByOperator && t.operatorStop && t.reviewed == s.reviewed
      && t.pending == s.pending[1..] && t.completed == s.completed && t.stopped == [s.pending[0]]
  }

  /** An accepted review: one event and one checkpoint, with the objective where the choice takes it. */
  lemma ReviewAnswered(cfg: Config, w: Workspace, r: Review) returns (s: State, t: State)
    requires ValidConfig(cfg) && Sound(cfg, w) && Perform(cfg, w, Decide(r)).Ok?
    ensures w == Workspace(s.events, Some(s)) && After(cfg, w, Decide(r)) == Workspace(t.events, Some(t))
    ensures SavesOf(cfg, w, Decide(r)) == [t] && !s.operatorStop
    ensures s.pending != [] && s.review.Some? && Moved(s, t, r.choice, s.review.value.phase)
    ensures Answered(s, t, r.stamp,
                     Draft(ReviewDecision, s.nextIteration - 1, Some(s.pending[0]), NoPolicy,
                           ReviewOutcome(r.choice), Reviewed(r.decisionId, s.review.value.phase)),
                     ReviewNote(s.pending[0], r.choice, r.decisionId))
  {
    hide LogSafe, LogExtends, Recorded, Metered, Dispositions, Writes, StateMatchesLog, Sealed, ValidConfig, Distinct;
    s := w.checkpoint.value;
    t := ApplyReview(cfg, s, r);
    var d := ReviewDraft(s, r, s.review.value.phase);
    SealedSays(cfg.hash, s.events, r.stamp, d);
    OneWrite(w, s, t, Sealed(cfg.hash, s.events, r.stamp, d));
    VerifiedMeansInStep(cfg, w);
  }

  /**
   An operator stop of anything live: the current objective, if there is one, is stopped with it, a
   pending review is dropped, everything else stays.
   */
  lemma HaltAnswered(cfg: Config, w: Workspace, stamp: string, s: State) returns (t: State)
    requires ValidConfig(cfg) && Sound(cfg, w) && w.checkpoint == Some(s)
    requires s.status !in {Completed, StoppedByOperator}
    ensures Perform(cfg, w, Halt(stamp)).Ok? && SavesOf(cfg, w, Halt(stamp)) == [t]
    ensures Answered(s, t, stamp, Draft(OperatorStop, 0, None, NoPolicy, OperatorStopOutcome, NoDetails), OperatorNote)
    ensures After(cfg, w, Halt(stamp)) == Workspace(w.log + [t.events[|s.events|]], Some(t))
    ensures t.status == StoppedByOperator && t.operatorStop && t.completed == s.completed && t.reviewed == s.reviewed
    ensures s.current.None? ==> t.pending == s.pending && t.stopped == s.stopped
    ensures s.current.Some? ==>
      && s.pending != [] && s.current.value == s.pending[0]
      && t.pending == s.pending[1..] && t.stopped == [s.pending[0]]
  {
    hide LogSafe, LogExtends, Recorded, Metered, Dispositions, Writes, Sealed, ValidConfig, Distinct;
    t := OperatorStopped(cfg, s, stamp);
    var d := Draft(OperatorStop, 0, None, NoPolicy, OperatorStopOutcome, NoDetails);
    SealedSays(cfg.hash, s.events, stamp, d);
    OneWrite(w, s, t, Sealed(cfg.hash, s.events, stamp, d));
  }

  // ----- The operator's stop in saved checkpoints -----

  /** The operator asked for a stop: directly, or as the answer to a review. */
  predicate AsksToStop(d: Draft) {
    d.kind == OperatorStop || (d.kind == ReviewDecision && d.outcome == ReviewOutcome(StopCampaign))
  }

  ghost predicate StopAsked(ds: seq<Draft>) {
    exists i :: 0 <= i < |ds| && AsksToStop(ds[i])
  }

  ghost predicate StopKnown(s: State) {
    s.operatorStop <==> StopAsked(Drafts(s.events))
  }

  lemma StopAskedJoin(a: seq<Draft>, b: seq<Draft>)
    ensures StopAsked(a + b) <==> StopAsked(a) || StopAsked(b)
  {
    if StopAsked(a) {
      var i :| 0 <= i < |a| && AsksToStop(a[i]);
      assert (a + b)[i] == a[i];
    }
    if StopAsked(b) {
      var i :| 0 <= i < |b| && AsksToStop(b[i]);
      assert (a + b)[|a| + i] == b[i];
    }
  }

  /** Nothing a run logs asks for a stop. */
  lemma RunAsksNothing(env: Env, s: State, todo: seq<Objective>, n: nat, done: nat, e: Ending)
    requires n <= |todo| && done <= |todo| && (done == |todo| ==> e.Quiet())
    ensures StopAsked(LogAt(env, s, todo, n)) <==> StopAsked(Drafts(s.events))
    ensures !StopAsked(Closing(s, todo, done, e))
  {
    var results := seq(n, j requires 0 <= j < n => ResultDraft(env, s, todo, j));
    StopAskedJoin(Drafts(s.events) + Opening(s), results);
    StopAskedJoin(Drafts(s.events), Opening(s));
  }

  lemma BetweenKnown(env: Env, s: State, todo: seq<Objective>, v: State, j: nat, c: Option<Id>)
    requires Between(env, s, todo, v, j, c) && StopKnown(s)
    ensures StopKnown(v)
  {
    hide LogAt, Drafts;
    RunAsksNothing(env, s, todo, j, j, StepLimit);
  }

  lemma EndedKnown(env: Env, s: State, todo: seq<Objective>, t: State, done: nat, e: Ending)
    requires done <= |todo| && (done == |todo| ==> e.Quiet()) && Ended(env, s, todo, t, done, e) && StopKnown(s)
    ensures StopKnown(t)
  {
    hide LogAt, Drafts, Closing;
    var n := if e.AfterResult() then done + 1 else done;
    RunAsksNothing(env, s, todo, n, done, e);
    StopAskedJoin(LogAt(env, s, todo, n), Closing(s, todo, done, e));
  }

  lemma {:induction false} SavedKnown(env: Env, s: State, todo: seq<Objective>, saves: seq<State>, j: nat, done: nat,
                                      e: Ending)
    requires j <= done <= |todo| && (done == |todo| ==> e.Quiet())
    requires SavedFrom(env, s, todo, saves, j, done, e) && StopKnown(s)
    ensures forall i :: 0 <= i < |saves| ==> StopKnown(saves[i])
    decreases done - j
  {
    hide Between, Ended, StopKnown;
    if j < done {
      BetweenKnown(env, s, todo, saves[0], j, Some(todo[j].id));
      BetweenKnown(env, s, todo, saves[1], j + 1, None);
      SavedKnown(env, s, todo, saves[2..], j + 1, done, e);
      assert forall i :: 2 <= i < |saves| ==> saves[i] == saves[2..][i - 2];
    } else if e.AfterResult() {
      BetweenKnown(env, s, todo, saves[0], j, Some(todo[j].id));
      EndedKnown(env, s, todo, saves[1], done, e);
    } else if saves != [] {
      EndedKnown(env, s, todo, saves[0], done, e);
    }
  }

  lemma RunKnown(cfg: Config, env: Env, s: State)
    requires ValidConfig(cfg) && ValidEnv(env) && Inv(cfg, s) && Executable(s.status) && StopKnown(s)
    ensures forall i :: 0 <= i < |Run(cfg, env, s)| ==> StopKnown(Run(cfg, env, s)[i])
  {
    hide ValidConfig, ValidEnv, Inv, Run, Between, Ended, StopKnown, SavedFrom, Passes;
    var done, e := RunReported(cfg, env, s);
    var saves, todo := Run(cfg, env, s), Ahead(cfg, s);
    EndedBy(cfg, env, s, todo, done, e);
    BetweenKnown(env, s, todo, saves[0], 0, s.current);
    SavedKnown(env, s, todo, saves[1..|saves| - 1], 0, done, e);
    EndedKnown(env, s, todo, saves[|saves| - 1], done, e);
    assert forall i :: 1 <= i < |saves| - 1 ==> saves[i] == saves[1..|saves| - 1][i - 1];
  }

  lemma OneMoreDraft(events: seq<Event>, longer: seq<Event>)
    requires |longer| == |events| + 1 && events <= longer
    ensures StopAsked(Drafts(longer)) <==> StopAsked(Drafts(events)) || AsksToStop(longer[|events|].body.draft)
  {
    var one := [longer[|events|].body.draft];
    assert Drafts(longer) == Drafts(events) + one;
    StopAskedJoin(Drafts(events), one);
    assert StopAsked(one) <==> AsksToStop(one[0]);
  }

  lemma AnswersKnown(cfg: Config, w: Workspace, c: Call)
    requires ValidConfig(cfg) && Sound(cfg, w) && (c.Decide? || c.Halt?) && Perform(cfg, w, c).Ok?
    requires StopKnown(w.checkpoint.value)
    ensures forall i :: 0 <= i < |SavesOf(cfg, w, c)| ==> StopKnown(SavesOf(cfg, w, c)[i])
  {
    hide ApplyReview, OperatorStopped, Sound, Writes, LogMatches, ValidConfig, After;
    match c
    case Decide(r) =>
      var s, t := ReviewAnswered(cfg, w, r);
      OneMoreDraft(s.events, t.events);
    case Halt(stamp) =>
      var s := w.checkpoint.value;
      var t := HaltAnswered(cfg, w, stamp, s);
      OneMoreDraft(s.events, t.events);
  }

  lemma StepKnown(cfg: Config, w: Workspace, a: Action)
    requires ValidConfig(cfg) && Sound(cfg, w) && ValidCall(a.call)
    requires w.checkpoint.Some? ==> StopKnown(w.checkpoint.value)
    ensures var t := Step(cfg, w, a); t.checkpoint.Some? ==> StopKnown(t.checkpoint.value)
  {
    hide Run, ApplyReview, OperatorStopped, LogExtends, LogSafe, Inv, Writes, LogMatches, ValidConfig, StopKnown, Step;
    var c := a.call;
    if Perform(cfg, w, c).Ok? {
      match c
      case FreshRun(env) =>
        InitialKeeps(cfg);
        NothingAsked(cfg);
        RunKnown(cfg, env, InitialState(cfg));
      case ResumeRun(env) => RunKnown(cfg, env, w.checkpoint.value);
      case Decide(_) => AnswersKnown(cfg, w, c);
      case Halt(_) => AnswersKnown(cfg, w, c);
    }
    StepMeets(cfg, w, a, (s: State) => StopKnown(s));
  }

  lemma NothingAsked(cfg: Config)
    ensures StopKnown(InitialState(cfg))
  {
  }

  /**
   After any history the saved checkpoint carries the operator's stop exactly if its events say that
   the operator asked for one, and is then stopped by the operator.
   */
  lemma {:induction false} StopExactlyAsked(cfg: Config, actions: seq<Action>)
    requires ValidConfig(cfg) && ValidHistory(actions) && History(cfg, actions).checkpoint.Some?
    ensures var s := History(cfg, actions).checkpoint.value;
      && (s.operatorStop <==> exists i :: 0 <= i < |s.events| && AsksToStop(s.events[i].body.draft))
      && (s.operatorStop <==> s.status == StoppedByOperator)
  {
    hide History, ValidConfig, ValidHistory;
    HistoryKnown(cfg, actions);
    CheckpointFacts(cfg, actions);
    var s := History(cfg, actions).checkpoint.value;
    if StopAsked(Drafts(s.events)) {
      var i :| 0 <= i < |s.events| && AsksToStop(Drafts(s.events)[i]);
      assert AsksToStop(s.events[i].body.draft);
    }
    forall i | 0 <= i < |s.events| && AsksToStop(s.events[i].body.draft) ensures StopAsked(Drafts(s.events)) {
      assert AsksToStop(Drafts(s.events)[i]);
    }
  }

  lemma {:induction false} HistoryKnown(cfg: Config, actions: seq<Action>)
    requires ValidConfig(cfg) && ValidHistory(actions)
    ensures var w := History(cfg, actions); w.checkpoint.Some? ==> StopKnown(w.checkpoint.value)
    decreases actions
  {
    hide Step, StopKnown, ValidConfig, Sound;
    if actions != [] {
      HistoryKnown(cfg, actions[..|actions| - 1]);
      HistorySound(cfg, actions[..|actions| - 1]);
      StepKnown(cfg, History(cfg, actions[..|actions| - 1]), actions[|actions| - 1]);
    }
  }
}
