/** The entry points keep the campaign invariant, in every checkpoint they save. */
module CampaignRuns {
  import opened Basics
  import opened Objectives
  import opened EventLog
  import opened CampaignState
  import opened CampaignSpec
  import opened CampaignInvariant
  import opened CampaignSteps

  // ----- Starting and finishing an invocation -----

  ghost predicate Grows(a: seq<Event>, b: seq<Event>, most: nat) {
    a <= b && |b| <= |a| + most
  }

  lemma InitialKeeps(cfg: Config)
    requires ValidConfig(cfg)
    ensures Inv(cfg, InitialState(cfg))
  {
    assert [] + [] + Ids(cfg.order) == Ids(cfg.order);
    assert forall m :: Count([], m) == 0;
  }

  /** An event other than a result changes nothing the invariant reads but the log. */
  lemma QuietKeeps(cfg: Config, env: Env, s: State, d: Draft)
    requires Inv(cfg, s) && d.kind != ObjectiveResult
    ensures Inv(cfg, Appended(cfg, env, s, d))
  {
    hide Count, LogSafe, Chained, Justified, ApprovalLogged;
    var t := Appended(cfg, env, s, d);
    QuietRecorded(cfg, s, t, env.stamp(|s.events| + 1), d);
    forall id ensures Count(t.events, RunOf(id)) == Count(s.events, RunOf(id)) {}
    forall id ensures Count(t.events, GateOf(id)) == Count(s.events, GateOf(id)) {}
  }

  lemma RestartKeeps(cfg: Config, s: State)
    requires Inv(cfg, s) && Executable(s.status)
    ensures Inv(cfg, Saved(s.(status := Running)))
  {
    hide Recorded;
    assert Recorded(cfg, Saved(s.(status := Running))) by {
      RecordedOnly(cfg, s, Saved(s.(status := Running)));
    }
  }

  /** Recorded reads only the log, the dispositions, the reviews and the iteration. */
  lemma RecordedOnly(cfg: Config, s: State, t: State)
    requires Recorded(cfg, s) && t.events == s.events && t.lastHash == s.lastHash && t.nextIteration == s.nextIteration
    requires t.completed == s.completed && t.pending == s.pending && t.reviewed == s.reviewed
    requires AwaitingReview(s, PreExecution) <==> AwaitingReview(t, PreExecution)
    requires AwaitingReview(s, PostExecution) <==> AwaitingReview(t, PostExecution)
    ensures Recorded(cfg, t)
  {
    hide Count, LogSafe, Chained, Justified, ApprovalLogged;
  }

  lemma BegunKeeps(cfg: Config, env: Env, s: State)
    requires Inv(cfg, s) && Executable(s.status)
    ensures var t := Begun(cfg, env, s);
      Checkpointed(cfg, t) && t.status == Running && t.pending == s.pending && t.completed == s.completed
      && t.elapsed == s.elapsed && Grows(s.events, t.events, 2)
  {
    hide Inv;
    var started := Draft(CampaignStarted, 0, None, NoPolicy, PlannedOutcome, NoDetails);
    var resumed := Draft(CampaignResumed, 0, None, NoPolicy, RunningOutcome, NoDetails);
    var s1 := if s.events == [] then Appended(cfg, env, s, started) else s;
    var s2 := if s.status == ReadyToResume then Appended(cfg, env, s1, resumed) else s1;
    QuietKeeps(cfg, env, s, started);
    QuietKeeps(cfg, env, s1, resumed);
    RestartKeeps(cfg, s2);
  }

  lemma FinishedKeeps(cfg: Config, env: Env, s: State, base: real)
    requires ValidEnv(env) && Checkpointed(cfg, s)
    ensures var t := Finished(cfg, env, s, base);
      Checkpointed(cfg, t) && Grows(s.events, t.events, 1)
      && (s.status != Running ==> t.events == s.events && t.status == s.status)
      && (s.status == Running ==> t.status == (if s.pending == [] then Completed else Running))
  {
    hide Inv;
    var elapsed := base + (env.ended - env.started);
    Retimed(cfg, s, elapsed);
    if s.status == Running && s.pending == [] {
      var t := s.(elapsed := elapsed, status := Completed, current := None);
      var finished := Draft(CampaignFinished, 0, None, NoPolicy, CompletedOutcome, IterationCount(s.nextIteration - 1));
      assert Inv(cfg, t) by { CompletionKeeps(cfg, s.(elapsed := elapsed)); }
      QuietKeeps(cfg, env, t, finished);
      Retimed(cfg, Appended(cfg, env, t, finished), elapsed);
      assert Finished(cfg, env, s, base) == Saved(Appended(cfg, env, t, finished).(elapsed := elapsed));
    }
  }

  lemma CompletionKeeps(cfg: Config, s: State)
    requires Inv(cfg, s) && s.status == Running && s.pending == []
    ensures Inv(cfg, s.(status := Completed, current := None))
  {
    hide Recorded;
    RecordedOnly(cfg, s, s.(status := Completed, current := None));
  }

  // ----- Sequences of checkpoints -----

  /** Each checkpoint satisfies the invariant and adds at most two events to the one before. */
  ghost predicate Commits(cfg: Config, events: seq<Event>, saves: seq<State>)
    decreases saves
  {
    saves == [] || (
      Grows(events, saves[0].events, 2) && Checkpointed(cfg, saves[0]) && Commits(cfg, saves[0].events, saves[1..]))
  }

  /** The events of the last checkpoint. */
  function CommittedEvents(events: seq<Event>, saves: seq<State>): seq<Event> {
    if saves == [] then events else saves[|saves| - 1].events
  }

  lemma {:induction false} CommitsConcat(cfg: Config, events: seq<Event>, a: seq<State>, b: seq<State>)
    requires Commits(cfg, events, a) && Commits(cfg, CommittedEvents(events, a), b)
    ensures Commits(cfg, events, a + b)
    ensures CommittedEvents(events, a + b) == CommittedEvents(CommittedEvents(events, a), b)
    decreases a
  {
    hide Checkpointed;
    if a == [] {
      assert a + b == b;
    } else {
      assert (a + b)[1..] == a[1..] + b;
      assert CommittedEvents(a[0].events, a[1..]) == CommittedEvents(events, a);
      CommitsConcat(cfg, a[0].events, a[1..], b);
    }
  }

  lemma {:induction false} CommitsOne(cfg: Config, events: seq<Event>, t: State)
    requires Grows(events, t.events, 2) && Checkpointed(cfg, t)
    ensures Commits(cfg, events, [t])
  {
    hide Checkpointed;
    assert Commits(cfg, t.events, [t][1..]);
  }

  /** How each branch of the loop body extends the log. */
  lemma VisitGrows(cfg: Config, env: Env, s: State, o: Objective, base: real)
    requires o.id in s.pending
    ensures var v := Visit(cfg, env, s, o, base);
      && |v.saves| <= 2 && (v.saves != [] ==> v.saves[|v.saves| - 1] == v.s)
      && (|v.saves| == 0 ==> Grows(s.events, v.s.events, 1) && v.s.status != Running)
      && (|v.saves| == 1 ==> Grows(s.events, v.s.events, 1))
      && (|v.saves| == 2 ==> v.saves[0].events == s.events && Grows(s.events, v.s.events, 2))
  {
  }

  lemma {:induction false} VisitCommits(cfg: Config, env: Env, s: State, o: Objective, base: real)
    requires ValidConfig(cfg) && ValidEnv(env) && AtHead(cfg, s, o)
    ensures var v := Visit(cfg, env, s, o, base);
      && Checkpointed(cfg, v.s) && Commits(cfg, s.events, v.saves)
      && Grows(CommittedEvents(s.events, v.saves), v.s.events, 1)
      && (v.s.status == Running ==> v.s.events == CommittedEvents(s.events, v.saves))
  {
    hide Inv, Visit, ValidConfig, ValidEnv;
    RunningFacts(cfg, s);
    HeadFacts(cfg, s);
    VisitKeeps(cfg, env, s, o, base);
    VisitGrows(cfg, env, s, o, base);
    var v := Visit(cfg, env, s, o, base);
    if |v.saves| == 2 {
      CommitsOne(cfg, v.saves[0].events, v.saves[1]);
      assert v.saves[1..] == [v.saves[1]];
    } else if |v.saves| == 1 {
      CommitsOne(cfg, s.events, v.s);
      assert v.saves == [v.s];
    }
  }

  lemma RunningFacts(cfg: Config, s: State)
    requires Inv(cfg, s)
    ensures Dispositions(cfg, s) && (s.status in {Running, Paused, ReadyToResume, Planned} ==> s.stopped == [])
    ensures s.current.Some? ==> s.pending != [] && s.current.value == s.pending[0]
    ensures s.operatorStop <==> s.status == StoppedByOperator
  {
  }

  /** The loop keeps the invariant; only a budget stop leaves its last event unsaved. */
  lemma {:induction false} LoopKeeps(cfg: Config, env: Env, s: State, k: nat, steps: nat, base: real)
    requires ValidConfig(cfg) && ValidEnv(env) && Checkpointed(cfg, s) && s.status == Running
    requires k <= |s.completed|
    ensures var p := Loop(cfg, env, s, k, steps, base);
      && Checkpointed(cfg, p.s) && Commits(cfg, s.events, p.saves)
      && Grows(CommittedEvents(s.events, p.saves), p.s.events, 1)
      && (p.s.status == Running ==> p.s.events == CommittedEvents(s.events, p.saves))
      && p.s.status !in {Planned, ReadyToResume, Completed}
      && (env.maxSteps.None? && p.s.status == Running ==> p.s.pending == [])
    decreases |cfg.order| - k
  {
    hide Inv, Visit, ValidConfig, ValidEnv, Commits;
    RunningFacts(cfg, s);
    if k < |cfg.order| {
      PendingPosition(cfg, s, k);
      if cfg.order[k].id !in s.pending {
        LoopKeeps(cfg, env, s, k + 1, steps, base);
      } else if OutOfSteps(env, steps) {
        CommitsNone(cfg, s.events);
      } else {
        HeadFacts(cfg, s);
        var o := cfg.order[k];
        VisitStatus(cfg, env, s, o, base);
        VisitCommits(cfg, env, s, o, base);
        var v := Visit(cfg, env, s, o, base);
        if v.s.status == Running {
          LoopKeeps(cfg, env, v.s, k + 1, steps + 1, base);
          var rest := Loop(cfg, env, v.s, k + 1, steps + 1, base);
          CommitsConcat(cfg, s.events, v.saves, rest.saves);
        }
      }
    } else {
      CommitsNone(cfg, s.events);
      assert |s.completed + s.stopped + s.pending| == |Ids(cfg.order)|;
    }
  }

  lemma CommitsNone(cfg: Config, events: seq<Event>)
    ensures Commits(cfg, events, [])
  {
  }

  /**
   An accepted run_campaign saves only checkpoints satisfying the invariant, appends at most two
   events before each, and leaves a status from which it either continues or has an answer.
   */
  lemma {:induction false} RunKeeps(cfg: Config, env: Env, s: State)
    requires ValidConfig(cfg) && ValidEnv(env) && Inv(cfg, s) && Executable(s.status)
    ensures Commits(cfg, s.events, Run(cfg, env, s)) && Checkpointed(cfg, RunResult(cfg, env, s))
    ensures RunResult(cfg, env, s).status !in {Planned, ReadyToResume}
    ensures env.maxSteps.None? ==> RunResult(cfg, env, s).status != Running
  {
    hide Inv, Loop, Begun, Finished, ValidConfig, ValidEnv, Commits;
    RunningFacts(cfg, s);
    BegunKeeps(cfg, env, s);
    var begun := Begun(cfg, env, s);
    LoopKeeps(cfg, env, begun, 0, 0, begun.elapsed);
    var p := Loop(cfg, env, begun, 0, 0, begun.elapsed);
    FinishedKeeps(cfg, env, p.s, begun.elapsed);
    var f := Finished(cfg, env, p.s, begun.elapsed);
    CommitsOne(cfg, s.events, begun);
    CommitsOne(cfg, CommittedEvents(begun.events, p.saves), f);
    CommitsConcat(cfg, begun.events, p.saves, [f]);
    CommitsConcat(cfg, s.events, [begun], p.saves + [f]);
    assert [begun] + (p.saves + [f]) == Run(cfg, env, s);
  }

  // ----- Elapsed time -----

  lemma {:induction false} LoopTimed(cfg: Config, env: Env, s: State, k: nat, steps: nat, base: real)
    requires ClockForward(env) && s.elapsed >= 0.0 && base >= 0.0
    ensures var p := Loop(cfg, env, s, k, steps, base);
      p.s.elapsed >= 0.0 && forall i :: 0 <= i < |p.saves| ==> p.saves[i].elapsed >= 0.0
    decreases |cfg.order| - k
  {
    hide Visit, ClockForward;
    if k < |cfg.order| {
      if cfg.order[k].id !in s.pending {
        LoopTimed(cfg, env, s, k + 1, steps, base);
      } else if !OutOfSteps(env, steps) {
        VisitTimed(cfg, env, s, cfg.order[k], base);
        LoopTimed(cfg, env, Visit(cfg, env, s, cfg.order[k], base).s, k + 1, steps + 1, base);
      }
    }
  }

  lemma VisitTimed(cfg: Config, env: Env, s: State, o: Objective, base: real)
    requires ClockForward(env) && s.elapsed >= 0.0 && base >= 0.0
    ensures var v := Visit(cfg, env, s, o, base);
      v.s.elapsed >= 0.0 && forall i :: 0 <= i < |v.saves| ==> v.saves[i].elapsed >= 0.0
  {
    assert env.clock(s.nextIteration, IterationEnd) >= env.started;
  }

  /** A clock that does not run backwards keeps the elapsed time of every checkpoint non-negative. */
  lemma RunTimed(cfg: Config, env: Env, s: State)
    requires ClockForward(env) && s.elapsed >= 0.0
    ensures forall i :: 0 <= i < |Run(cfg, env, s)| ==> Run(cfg, env, s)[i].elapsed >= 0.0
  {
    var begun := Begun(cfg, env, s);
    LoopTimed(cfg, env, begun, 0, 0, begun.elapsed);
    var p := Loop(cfg, env, begun, 0, 0, begun.elapsed);
    assert Finished(cfg, env, p.s, begun.elapsed).elapsed >= 0.0;
  }

  // ----- Reviews and operator stops -----

  lemma ApprovalShows(cfg: Config, events: seq<Event>, e: Event, id: Id, phase: Phase)
    requires ApprovalAt(e, id, phase)
    ensures ApprovalLogged(events + [e], id, phase)
    ensures phase == PostExecution ==> Justified(cfg, events + [e], id)
  {
    var longer := events + [e];
    assert longer[|events|] == e;
    if phase == PostExecution {
      assert CompletionAt(cfg, longer, id, |events|);
    }
  }

  lemma ReviewRecorded(cfg: Config, s: State, r: Review)
    requires ValidConfig(cfg) && Checkpointed(cfg, s) && s.status == Paused && s.current == Some(r.objective)
    ensures Recorded(cfg, ApplyReview(cfg, s, r))
  {
    hide Count, LogSafe, Chained, Justified, ApprovalLogged, ValidConfig, Metered;
    HeadFacts(cfg, s);
    var phase := s.review.value.phase;
    var t := ApplyReview(cfg, s, r);
    var e := t.events[|s.events|];
    QuietRecorded(cfg, s, t, r.stamp, e.body.draft);
    if r.choice == Approved {
      ApprovalShows(cfg, s.events, e, r.objective, phase);
    }
    if t.pending != s.pending {
      StopUntouched(cfg, s, t);
    }
  }

  /** An accepted review of a paused checkpoint: one event, one valid checkpoint. */
  lemma ReviewKeeps(cfg: Config, s: State, r: Review)
    requires ValidConfig(cfg) && Checkpointed(cfg, s) && s.status == Paused && s.current == Some(r.objective)
    ensures Checkpointed(cfg, ApplyReview(cfg, s, r)) && Grows(s.events, ApplyReview(cfg, s, r).events, 1)
    ensures ApplyReview(cfg, s, r).status in {ReadyToResume, StoppedByCondition, StoppedByOperator}
  {
    hide Recorded, ValidConfig;
    HeadFacts(cfg, s);
    ReviewRecorded(cfg, s, r);
    ReviewShape(cfg, s, r);
  }

  lemma ReviewShape(cfg: Config, s: State, r: Review)
    requires ValidConfig(cfg) && Shape(cfg, s) && s.status == Paused && s.current == Some(r.objective)
    ensures Shape(cfg, ApplyReview(cfg, s, r))
  {
    hide ValidConfig, ReviewedShape, Sealed, LastHash;
    HeadFacts(cfg, s);
    ReviewedAfterReview(cfg, s, r);
    var t := ApplyReview(cfg, s, r);
    if t.pending != s.pending {
      assert t.completed + t.stopped + t.pending == s.completed + s.stopped + s.pending;
    }
  }

  lemma ReviewedAfterReview(cfg: Config, s: State, r: Review)
    requires ValidConfig(cfg) && Shape(cfg, s) && s.status == Paused && s.current == Some(r.objective)
    ensures ReviewedShape(ApplyReview(cfg, s, r))
  {
    hide ValidConfig, Dispositions;
    RunningDispositions(cfg, s);
    HeadFacts(cfg, s);
  }

  lemma RunningDispositions(cfg: Config, s: State)
    requires Shape(cfg, s)
    ensures Dispositions(cfg, s) && (s.status == Paused ==> s.stopped == [] && s.review.Some?)
  {
  }

  /** An operator stop of any live checkpoint, in the middle of an objective or not. */
  lemma OperatorStopKeeps(cfg: Config, s: State, stamp: string)
    requires ValidConfig(cfg) && Checkpointed(cfg, s) && s.status !in {Completed, StoppedByOperator}
    ensures Checkpointed(cfg, OperatorStopped(cfg, s, stamp))
    ensures Grows(s.events, OperatorStopped(cfg, s, stamp).events, 1)
    ensures OperatorStopped(cfg, s, stamp).status == StoppedByOperator
  {
    hide Count, LogSafe, Chained, Justified, ApprovalLogged, ValidConfig;
    var t := OperatorStopped(cfg, s, stamp);
    var d := Draft(OperatorStop, 0, None, NoPolicy, OperatorStopOutcome, NoDetails);
    QuietRecorded(cfg, s, t, stamp, d);
    if s.current.Some? {
      HeadFacts(cfg, s);
      assert t.completed + t.stopped + t.pending == s.completed + s.stopped + s.pending;
      StopUntouched(cfg, s, t);
    } else {
      assert PendingUntouched(t);
    }
  }
}
