/**
 The campaign engine as it runs: a checkpoint object updated in place, an append-only log and a
 checkpoint file (src/aotp/campaign_loop.py, campaign_control.py).  Each method is proved to
 compute what CampaignSpec says and to write exactly what Disk says, in that order.
 */
module CampaignEngine {
  import opened Basics
  import opened Objectives
  import opened EventLog
  import opened CampaignState
  import opened CampaignSpec
  import opened CampaignInvariant
  import opened CampaignSteps
  import opened CampaignRuns
  import opened Disk
  import opened CrashSafety
  import Scheduler

  // ----- The workspace files -----

  /** The event log file and the checkpoint file, with the writes that produced them. */
  class Files {
    var log: seq<Event>
    var checkpoint: Option<State>
    ghost var journal: seq<Write>

    constructor ()
      ensures Valid() && View() == Workspace([], None) && journal == []
    {
      log, checkpoint, journal := [], None, [];
    }

    ghost function View(): Workspace
      reads this
    {
      Workspace(log, checkpoint)
    }

    ghost predicate Valid()
      reads this
    {
      View() == ApplyAll(Workspace([], None), journal)
    }

    method Append(e: Event)
      requires Valid()
      modifies this
      ensures Valid() && journal == old(journal) + [AppendEvent(e)]
      ensures log == old(log) + [e] && checkpoint == old(checkpoint)
    {
      ApplyOne(journal, AppendEvent(e));
      log := log + [e];
      journal := journal + [AppendEvent(e)];
    }

    method Replace(s: State)
      requires Valid()
      modifies this
      ensures Valid() && journal == old(journal) + [SaveCheckpoint(s)]
      ensures log == old(log) && checkpoint == Some(s)
    {
      ApplyOne(journal, SaveCheckpoint(s));
      checkpoint := Some(s);
      journal := journal + [SaveCheckpoint(s)];
    }
  }

  lemma ApplyOne(journal: seq<Write>, w: Write)
    ensures ApplyAll(Workspace([], None), journal + [w]) == Apply(ApplyAll(Workspace([], None), journal), w)
  {
    ApplySplit(Workspace([], None), journal, [w]);
    var one := [w];
    assert one[1..] == [];
  }

  // ----- Writes of a run in progress -----

  /** How many events are logged once these checkpoints are saved. */
  function Committed(logged: nat, saves: seq<State>): nat {
    if saves == [] then logged else |saves[|saves| - 1].events|
  }

  function UnsavedFrom(n: nat, events: seq<Event>): seq<Write> {
    if n <= |events| then Appends(events[n..]) else []
  }

  /** What has been written when memory is at p.s: the saves, and appends not yet saved. */
  function Emitted(logged: nat, p: Progress): seq<Write> {
    Writes(logged, p.saves) + UnsavedFrom(Committed(logged, p.saves), p.s.events)
  }

  lemma CommittedConcat(logged: nat, a: seq<State>, b: seq<State>)
    ensures Committed(logged, a + b) == Committed(Committed(logged, a), b)
  {
    if b == [] {
      assert a + b == a;
    }
  }

  lemma WritesStep(logged: nat, saves: seq<State>)
    requires saves != []
    ensures Writes(logged, saves) ==
      UnsavedFrom(logged, saves[0].events) + [SaveCheckpoint(saves[0])] + Writes(|saves[0].events|, saves[1..])
  {
  }

  lemma {:induction false} WritesNone(logged: nat)
    ensures Writes(logged, []) == []
  {
  }

  lemma {:induction false} WritesConcat(logged: nat, a: seq<State>, b: seq<State>)
    ensures Writes(logged, a + b) == Writes(logged, a) + Writes(Committed(logged, a), b)
    decreases a
  {
    hide UnsavedFrom, Writes;
    if a == [] {
      assert a + b == b;
      WritesNone(logged);
    } else {
      assert (a + b)[1..] == a[1..] + b;
      WritesStep(logged, a);
      WritesStep(logged, a + b);
      WritesConcat(|a[0].events|, a[1..], b);
      CommittedTail(logged, a);
    }
  }

  lemma CommittedTail(logged: nat, a: seq<State>)
    requires a != []
    ensures Committed(logged, a) == Committed(|a[0].events|, a[1..])
  {
  }

  lemma NothingUnsaved(events: seq<Event>)
    ensures UnsavedFrom(|events|, events) == []
  {
  }

  lemma UnsavedExtends(n: nat, a: seq<Event>, b: seq<Event>)
    requires n <= |a| && a <= b
    ensures UnsavedFrom(n, b) == UnsavedFrom(n, a) + UnsavedFrom(|a|, b)
  {
    assert b[n..] == a[n..] + b[|a|..];
  }

  /** Visiting an objective and going on with the loop: the writes follow one another. */
  lemma EmittedJoins(logged: nat, v: Progress, rest: Progress)
    requires v.saves != [] && v.saves[|v.saves| - 1] == v.s
    ensures Emitted(logged, Progress(rest.s, v.saves + rest.saves)) == Emitted(logged, v) + Emitted(|v.s.events|, rest)
  {
    hide Writes, UnsavedFrom;
    WritesConcat(logged, v.saves, rest.saves);
    CommittedConcat(logged, v.saves, rest.saves);
    NothingUnsaved(v.s.events);
  }

  lemma NothingEmitted(s: State)
    ensures Emitted(|s.events|, Progress(s, [])) == []
  {
    NothingUnsaved(s.events);
  }

  /** The closing save turns the appends still unsaved into a committed batch. */
  lemma {:induction false} EmittedCloses(logged: nat, p: Progress, f: State)
    requires p.s.events <= f.events && Committed(logged, p.saves) <= |p.s.events|
    ensures Emitted(logged, p) + UnsavedFrom(|p.s.events|, f.events) + [SaveCheckpoint(f)]
         == Writes(logged, p.saves + [f])
  {
    hide UnsavedFrom, Writes;
    WritesConcat(logged, p.saves, [f]);
    var n := Committed(logged, p.saves);
    UnsavedExtends(n, p.s.events, f.events);
    OneBatch(n, f);
  }

  lemma {:induction false} OneBatch(n: nat, f: State)
    requires n <= |f.events|
    ensures Writes(n, [f]) == UnsavedFrom(n, f.events) + [SaveCheckpoint(f)]
  {
    var one := [f];
    assert one[1..] == [];
  }

  // ----- The campaign object -----

  class Campaign {
    const objectives: seq<Objective>
    const limits: Limits
    const hash: Hasher
    const identity: Identity
    const files: Files
    ghost const cfg: Config

    var status: Status
    var pending: seq<Id>
    var completed: seq<Id>
    var stopped: seq<Id>
    var skipped: seq<Id>
    var reviewed: seq<Id>
    var current: Option<Id>
    var review: Option<PendingReview>
    var operatorStop: bool
    var nextIteration: int
    var revision: int
    var requests: int
    var minute: int
    var failures: int
    var elapsed: real
    var history: seq<StopNote>
    var events: seq<Event>
    var lastHash: Option<Digest>

    function View(): State
      reads this
    {
      State(status, pending, completed, stopped, skipped, reviewed, current, review, operatorStop,
            nextIteration, revision, requests, minute, failures, elapsed, history, events, lastHash)
    }

    /** The object carries out an accepted campaign. */
    ghost predicate Bound()
      reads this
    {
      && ValidConfig(cfg) && ValidIdentity(identity)
      && cfg.objectives == objectives && cfg.limits == limits && cfg.hash == hash && cfg.identity == identity
    }

    /** _initialize_state: the schedule is computed here for the first time. */
    constructor Fresh(objectives: seq<Objective>, limits: Limits, hash: Hasher, identity: Identity, files: Files)
      requires ValidIdentity(identity) && forall b :: DigestForm(hash(b))
      requires Distinct(Ids(objectives)) && limits.maxIterations > 0
      requires Known(ById(objectives)) && Acyclic(ById(objectives))
      ensures this.files == files && Bound() && View() == InitialState(cfg)
      ensures cfg == Config(objectives, cfg.order, limits, hash, identity)
    {
      var order := Scheduler.Schedule(objectives);
      this.objectives, this.limits, this.hash, this.identity, this.files := objectives, limits, hash, identity, files;
      cfg := Config(objectives, order.value, limits, hash, identity);
      status, pending, completed, stopped, skipped, reviewed := Planned, Ids(order.value), [], [], [], [];
      current, review, operatorStop, nextIteration, revision := None, None, false, 1, 0;
      requests, minute, failures, elapsed, history, events, lastHash := 0, 0, 0, 0.0, [], [], None;
    }

    /** load_state: the object continues from the saved checkpoint. */
    constructor Load(
      ghost cfg: Config, objectives: seq<Objective>, limits: Limits, hash: Hasher, identity: Identity, files: Files)
      requires ValidConfig(cfg) && cfg == Config(objectives, cfg.order, limits, hash, identity)
      requires files.checkpoint.Some?
      ensures this.files == files && Bound() && this.cfg == cfg && View() == files.checkpoint.value
    {
      this.objectives, this.limits, this.hash, this.identity, this.files := objectives, limits, hash, identity, files;
      this.cfg := cfg;
      var s := files.checkpoint.value;
      status, pending, completed := s.status, s.pending, s.completed;
      stopped, skipped, reviewed := s.stopped, s.skipped, s.reviewed;
      current, review, operatorStop := s.current, s.review, s.operatorStop;
      nextIteration, revision := s.nextIteration, s.revision;
      requests, minute, failures, elapsed := s.requests, s.minute, s.failures, s.elapsed;
      history, events, lastHash := s.history, s.events, s.lastHash;
    }

    /** append_campaign_event. */
    method AppendCampaignEvent(stamp: string, d: Draft)
      requires files.Valid() && lastHash == LastHash(events)
      modifies this`events, this`lastHash, files
      ensures files.Valid()
      ensures var e := Sealed(hash, old(events), stamp, d);
        View() == old(View()).(events := old(events) + [e], lastHash := e.hash)
      ensures files.journal == old(files.journal) + UnsavedFrom(|old(events)|, events)
    {
      var body := Body(|events| + 1, stamp, d, lastHash);
      var event := Event(body, Some(hash(body)));
      files.Append(event);
      events := events + [event];
      lastHash := event.hash;
      assert events[|old(events)|..] == [event];
    }

    /** save_state: False is the validation error, raised before anything is written. */
    method SaveState() returns (ok: bool)
      requires files.Valid()
      modifies this`revision, files
      ensures files.Valid() && ok == (ValidIdentity(identity) && ValidState(old(View())))
      ensures ok ==> View() == Saved(old(View())) && files.journal == old(files.journal) + [SaveCheckpoint(View())]
      ensures ok ==> files.checkpoint == Some(View())
      ensures !ok ==> View() == old(View()) && files.journal == old(files.journal)
    {
      if !(ValidIdentity(identity) && ValidState(View())) {
        return false;
      }
      revision := revision + 1;
      files.Replace(View());
      ok := true;
    }

    // ----- Moves between the lists -----

    method MoveToStopped(id: Id, stop: Status)
      modifies this`pending, this`stopped, this`current, this`status
      ensures View() == StopObjective(old(View()), id, stop)
    {
      hide Remove;
      pending := Remove(pending, id);
      stopped := stopped + [id];
      current := None;
      status := stop;
    }

    method MoveToCompleted(id: Id, next: Status)
      modifies this`pending, this`completed, this`current, this`status
      ensures View() == CompleteObjective(old(View()), id, next)
    {
      hide Remove;
      pending := Remove(pending, id);
      completed := completed + [id];
      current := None;
      status := next;
    }

    method AwaitReview(id: Id, phase: Phase, note: StopNote)
      modifies this`status, this`review, this`history
      ensures View() == old(View()).(status := Paused, review := Some(PendingReview(id, phase)),
                                     history := old(history) + [note])
    {
      status := Paused;
      review := Some(PendingReview(id, phase));
      history := history + [note];
    }

    // ----- Stops and pauses before execution -----

    method RecordFuzzingConditionStop(env: Env, o: Objective)
      requires files.Valid() && lastHash == LastHash(events) && cfg.hash == hash
      modifies this, files
      ensures files.Valid() && View() == FuzzingStopped(cfg, env, old(View()), o)
      ensures files.journal == old(files.journal) + UnsavedFrom(|old(events)|, events)
    {
      hide UnsavedFrom, ApplyAll, Remove, Sealed, LastHash, StopObjective, CompleteObjective;
      var iteration := nextIteration;
      MoveToStopped(o.id, StoppedByCondition);
      history := history + seq(|o.stopSignals|, i requires 0 <= i < |o.stopSignals| => SignalNote(o.stopSignals[i]));
      nextIteration := nextIteration + 1;
      AppendCampaignEvent(env.stamp(|events| + 1),
                          Draft(CampaignStop, iteration, Some(o.id), FuzzingSafetyStop, ConditionStopOutcome,
                                StopConditions(o.stopSignals)));
    }

    method RecordPanelLockoutPause(env: Env, o: Objective)
      requires files.Valid() && lastHash == LastHash(events) && cfg.hash == hash
      modifies this, files
      ensures files.Valid() && View() == LockoutPaused(cfg, env, old(View()), o)
      ensures files.journal == old(files.journal) + UnsavedFrom(|old(events)|, events)
    {
      hide UnsavedFrom, ApplyAll, Remove, Sealed, LastHash, StopObjective, CompleteObjective;
      var iteration := nextIteration;
      current := Some(o.id);
      AwaitReview(o.id, PreExecution, LockoutNote(o.id));
      nextIteration := nextIteration + 1;
      AppendCampaignEvent(env.stamp(|events| + 1),
                          Draft(CampaignPaused, iteration, Some(o.id), LockoutPause, PausedOutcome,
                                Phased(PreExecution)));
    }

    method RecordPreExecutionStop(env: Env, o: Objective, why: StopReason)
      requires files.Valid() && lastHash == LastHash(events) && cfg.hash == hash
      modifies this, files
      ensures files.Valid() && View() == PreExecutionStopped(cfg, env, old(View()), o, why)
      ensures files.journal == old(files.journal) + UnsavedFrom(|old(events)|, events)
    {
      hide UnsavedFrom, ApplyAll, Remove, Sealed, LastHash, StopObjective;
      var iteration := nextIteration;
      MoveToStopped(o.id, if operatorStop then StoppedByOperator else StoppedByBudget);
      history := history + [StopReasonNote(why)];
      nextIteration := nextIteration + 1;
      AppendCampaignEvent(env.stamp(|events| + 1),
                          Draft(CampaignStop, iteration, Some(o.id), StoppedBy(why), VerdictOutcome(PolicyStop),
                                StopDetail(why)));
    }

    // ----- Execution of one objective -----

    /** The gate, then the executor only if the gate allows. */
    method AttemptObjective(env: Env, o: Objective) returns (a: Attempt)
      ensures a == AttemptAt(env, View(), o)
    {
      var approved := o.id in reviewed;
      var reasons := env.gate(o, approved, nextIteration);
      if reasons == [] {
        var result := env.executor(o, nextIteration);
        a := Attempt(reasons, result.verdict, result.requests);
      } else if reasons == [HumanApprovalRequired] {
        a := Attempt(reasons, ManualReview, 0);
      } else {
        a := Attempt(reasons, PolicyStop, 0);
      }
    }

    method Charge(a: Attempt, budget: SafetyBudget)
      requires budget.View() == CountersOf(View()) && minute == requests
      modifies this`requests, this`minute, this`failures, budget
      ensures var c := Charged(CountersOf(old(View())), a.requests, a.Failed());
        && View() == old(View()).(requests := c.requests, minute := c.minute, failures := c.failures)
        && budget.View() == c
    {
      requests := requests + a.requests;
      budget.Record(a.requests, a.Failed());
      minute := budget.currentMinuteRequests;
      failures := budget.consecutiveFailures;
    }

    /** Counters, budget, and the objective_result event. */
    method LogResult(env: Env, o: Objective, a: Attempt, budget: SafetyBudget)
      requires files.Valid() && lastHash == LastHash(events) && cfg.hash == hash && minute == requests
      requires budget.View() == CountersOf(View())
      modifies this, files, budget
      ensures files.Valid() && View() == ResultLogged(cfg, env, old(View()), o, a)
      ensures files.journal == old(files.journal) + UnsavedFrom(|old(events)|, events)
      ensures budget.View() == CountersOf(View())
    {
      hide UnsavedFrom, ApplyAll, Sealed, LastHash;
      Charge(a, budget);
      AppendCampaignEvent(env.stamp(|events| + 1),
                          Draft(ObjectiveResult, nextIteration, Some(o.id), GateDecision(a.reasons),
                                VerdictOutcome(a.verdict), NoDetails));
      nextIteration := nextIteration + 1;
    }

    /** Pause, policy stop, or completion. */
    method Dispose(env: Env, o: Objective, a: Attempt)
      requires files.Valid() && lastHash == LastHash(events) && cfg.hash == hash
      modifies this, files
      ensures files.Valid() && View() == Disposed(cfg, env, old(View()), o, a)
      ensures files.journal == old(files.journal) + UnsavedFrom(|old(events)|, events)
    {
      hide UnsavedFrom, ApplyAll, Remove, Sealed, LastHash, StopObjective, CompleteObjective, PausedAfter, Files.Valid;
      NothingUnsaved(events);
      if a.GateOnly() {
        PauseForReview(env, o, PreExecution, ApprovalNote(o.id));
      } else if !a.Allowed() {
        MoveToStopped(o.id, StoppedByPolicy);
        history := history + seq(|a.reasons|, i requires 0 <= i < |a.reasons| => PolicyNoteEntry(a.reasons[i]));
      } else if a.verdict == ManualReview {
        PauseForReview(env, o, PostExecution, ReviewNeededNote(o.id));
      } else {
        MoveToCompleted(o.id, Running);
      }
    }

    method PauseForReview(env: Env, o: Objective, phase: Phase, note: StopNote)
      requires files.Valid() && lastHash == LastHash(events) && cfg.hash == hash
      modifies this, files
      ensures files.Valid() && View() == PausedAfter(cfg, env, old(View()), o, phase, note)
      ensures files.journal == old(files.journal) + UnsavedFrom(|old(events)|, events)
    {
      hide UnsavedFrom, ApplyAll, Sealed, LastHash;
      AwaitReview(o.id, phase, note);
      AppendCampaignEvent(env.stamp(|events| + 1),
                          Draft(CampaignPaused, nextIteration - 1, Some(o.id), NoPolicy, PausedOutcome, Phased(phase)));
    }

    /** The save that marks the objective current. */
    method MarkCurrent(o: Objective)
      requires files.Valid() && Bound() && AtHead(cfg, View(), o) && elapsed >= 0.0
      modifies this`current, this`revision, files
      ensures files.Valid() && View() == Marked(old(View()), o)
      ensures files.journal == old(files.journal) + [SaveCheckpoint(View())]
    {
      hide Inv, ValidConfig, Files.Valid, ValidState;
      MarkedValid(cfg, View(), o);
      current := Some(o.id);
      var ok := SaveState();
      assert ok;
    }

    /** The second save, at the end of the iteration. */
    method CloseIteration(env: Env, iteration: int, base: real)
      requires files.Valid() && ValidIdentity(identity)
      requires ValidState(View().(elapsed := base + (env.clock(iteration, IterationEnd) - env.started)))
      modifies this`elapsed, this`revision, files
      ensures files.Valid()
      ensures View() == Saved(old(View()).(elapsed := base + (env.clock(iteration, IterationEnd) - env.started)))
      ensures files.journal == old(files.journal) + [SaveCheckpoint(View())] && files.checkpoint == Some(View())
    {
      hide Files.Valid, ValidState;
      elapsed := base + (env.clock(iteration, IterationEnd) - env.started);
      var ok := SaveState();
      assert ok;
    }

    /** Gate and executor, the result, and where the objective goes. */
    method ResolveObjective(env: Env, o: Objective, budget: SafetyBudget)
      requires files.Valid() && lastHash == LastHash(events) && cfg.hash == hash && minute == requests
      requires budget.View() == CountersOf(View())
      modifies this, files, budget
      ensures files.Valid() && budget.View() == CountersOf(View())
      ensures var a := AttemptAt(env, old(View()), o);
        var r := ResultLogged(cfg, env, old(View()), o, a);
        && View() == Disposed(cfg, env, r, o, a)
        && files.journal == old(files.journal) + UnsavedFrom(|old(events)|, r.events) + UnsavedFrom(|r.events|, events)
    {
      hide UnsavedFrom, Disposed, ResultLogged, AttemptAt, Files.Valid, LastHash;
      var a := AttemptObjective(env, o);
      ResultKeepsHash(cfg, env, View(), o, a);
      LogResult(env, o, a, budget);
      DisposedCounters(cfg, env, View(), o, a);
      Dispose(env, o, a);
    }

    /** The part of the loop body from the save that marks the objective current to the last save. */
    method ExecuteObjective(env: Env, o: Objective, budget: SafetyBudget, base: real)
      requires files.Valid() && Bound() && ValidEnv(env) && ClockForward(env)
      requires AtHead(cfg, View(), o) && elapsed >= 0.0 && base >= 0.0
      requires DenialFor(cfg, env, View(), o, base).None? && Cleared(View(), o) && budget.View() == CountersOf(View())
      modifies this, files, budget
      ensures files.Valid() && View() == Executed(cfg, env, old(View()), o, base)
      ensures files.journal == old(files.journal) + Writes(|old(events)|, [Marked(old(View()), o), View()])
      ensures files.checkpoint == Some(View()) && budget.View() == CountersOf(View())
    {
      hide Inv, AtHead, ValidConfig, UnsavedFrom, Writes, Disposed;
      hide ResultLogged, Files.Valid, ValidState, ValidEnv, ClockForward, DenialFor, Marked;
      hide Executed, Checkpointed, Denial;
      ghost var s := View();
      var iteration := nextIteration;
      HeadEngineFacts(cfg, s, o);
      ExecutionValid(cfg, env, s, o, base);
      ExecutionWrites(cfg, env, s, o, base);
      MarkCurrent(o);
      ResolveObjective(env, o, budget);
      CloseIteration(env, iteration, base);
    }

    /** One pass of the loop body over a pending objective. */
    method VisitObjective(env: Env, o: Objective, budget: SafetyBudget, base: real)
      requires files.Valid() && Bound() && ValidEnv(env) && ClockForward(env) && budget.limits == limits
      requires AtHead(cfg, View(), o) && elapsed >= 0.0 && base >= 0.0 && budget.View() == CountersOf(View())
      modifies this, files, budget
      ensures files.Valid() && View() == Visit(cfg, env, old(View()), o, base).s
      ensures files.journal == old(files.journal) + Emitted(|old(events)|, Visit(cfg, env, old(View()), o, base))
      ensures status == Running ==> budget.View() == CountersOf(View())
    {
      hide Inv, AtHead, ValidConfig, UnsavedFrom, Writes, Executed, Files.Valid, ValidState, ValidEnv, ClockForward;
      hide FuzzingStopped, LockoutPaused, PreExecutionStopped, Marked, Emitted, Denial;
      ghost var s := View();
      HeadEngineFacts(cfg, s, o);
      if o.stopSignals != [] {
        FuzzingStopSaves(cfg, env, s, o);
        RecordFuzzingConditionStop(env, o);
        var ok := SaveState();
        assert ok;
      } else if o.lockoutRisk && o.id !in reviewed {
        LockoutPauseSaves(cfg, env, s, o);
        RecordPanelLockoutPause(env, o);
        var ok := SaveState();
        assert ok;
      } else {
        var reason := budget.DenialReason(base + (env.clock(nextIteration, BudgetCheck) - env.started),
                                          o.requestBudget);
        if operatorStop || reason.Some? {
          var why := if operatorStop then OperatorStopReason else reason.value;
          PreExecutionStopWrites(cfg, env, s, o, why);
          RecordPreExecutionStop(env, o, why);
        } else {
          ExecuteObjective(env, o, budget, base);
          ExecutionEmits(cfg, env, s, o, base);
        }
      }
    }

    // ----- run_campaign -----

    /** The log check at the start of a resumed run and of a review. */
    method LogFailures() returns (bad: bool)
      requires cfg.hash == hash
      ensures bad == !LogMatches(cfg, View(), files.log)
    {
      var lines := Lines(files.log);
      var failures := VerifyStateEventLog(hash, lines, lastHash, |events|);
      bad := failures != [];
    }

    /** The started event on an empty history, the resumed event after a review. */
    method AppendOpening(env: Env)
      requires files.Valid() && cfg.hash == hash && lastHash == LastHash(events)
      modifies this`events, this`lastHash, files
      ensures files.Valid() && View().(status := Running) == Begun(cfg, env, old(View())).(revision := revision)
      ensures files.journal == old(files.journal) + UnsavedFrom(|old(events)|, events)
    {
      hide UnsavedFrom, Files.Valid, Sealed, LastHash;
      ghost var s := View();
      NothingUnsaved(events);
      var priorStatus := status;
      if events == [] {
        AppendCampaignEvent(env.stamp(|events| + 1),
                            Draft(CampaignStarted, 0, None, NoPolicy, PlannedOutcome, NoDetails));
        AppendedHash(cfg, env, s, Draft(CampaignStarted, 0, None, NoPolicy, PlannedOutcome, NoDetails));
      }
      ghost var s1 := View();
      if priorStatus == ReadyToResume {
        AppendCampaignEvent(env.stamp(|events| + 1),
                            Draft(CampaignResumed, 0, None, NoPolicy, RunningOutcome, NoDetails));
      }
      UnsavedExtends(|s.events|, s1.events, events);
    }

    /** Started or resumed events, then the save as running. */
    method Open(env: Env)
      requires files.Valid() && Bound() && Inv(cfg, View()) && Executable(status) && elapsed >= 0.0
      modifies this`events, this`lastHash, this`status, this`revision, files
      ensures files.Valid() && View() == Begun(cfg, env, old(View()))
      ensures files.journal == old(files.journal) + Writes(|old(events)|, [View()]) && files.checkpoint == Some(View())
    {
      hide Inv, ValidConfig, UnsavedFrom, Writes, Files.Valid, ValidState, Begun, LastHash;
      OpenValid(cfg, env, View());
      AppendOpening(env);
      status := Running;
      var ok := SaveState();
      assert ok;
    }

    /** The loop over the schedule. */
    method RunLoop(env: Env, budget: SafetyBudget, base: real)
      requires files.Valid() && Bound() && ValidEnv(env) && ClockForward(env) && budget.limits == limits
      requires Checkpointed(cfg, View()) && status == Running && elapsed >= 0.0 && base >= 0.0
      requires budget.View() == CountersOf(View())
      modifies this, files, budget
      ensures files.Valid()
      ensures var p := Loop(cfg, env, old(View()), 0, 0, base);
        View() == p.s && files.journal == old(files.journal) + Emitted(|old(events)|, p)
    {
      hide Inv, ValidConfig, ValidEnv, ClockForward, Visit, Emitted, Files.Valid, Loop, Dispositions;
      ghost var s0, j0 := View(), files.journal;
      ghost var total := Loop(cfg, env, s0, 0, 0, base);
      var scheduled := Scheduler.Schedule(objectives);
      ScheduleIsOrder(cfg, scheduled);
      var ordered := scheduled.value;
      var k, steps := 0, 0;
      while k < |ordered|
        invariant files.Valid() && 0 <= k <= |ordered| && 0 <= steps
        invariant Checkpointed(cfg, View()) && status == Running && elapsed >= 0.0 && k <= |completed|
        invariant budget.View() == CountersOf(View())
        invariant total.s == Loop(cfg, env, View(), k, steps, base).s
        invariant j0 + Emitted(|s0.events|, total)
               == files.journal + Emitted(|events|, Loop(cfg, env, View(), k, steps, base))
        decreases |ordered| - k
      {
        RunningFacts(cfg, View());
        PendingPosition(cfg, View(), k);
        if ordered[k].id in pending {
          if env.maxSteps.Some? && steps >= env.maxSteps.value {
            LoopEnds(cfg, env, View(), k, steps, base);
            return;
          }
          HeadFacts(cfg, View());
          LoopStepFacts(cfg, env, View(), ordered[k], k, steps, base);
          VisitObjective(env, ordered[k], budget, base);
          if status != Running {
            return;
          }
          steps := steps + 1;
        } else {
          LoopPasses(cfg, env, View(), k, steps, base);
        }
        k := k + 1;
      }
      LoopEnds(cfg, env, View(), k, steps, base);
    }

    /** The final elapsed time, and completion if nothing is pending. */
    method Settle(env: Env, base: real)
      requires files.Valid() && cfg.hash == hash && lastHash == LastHash(events)
      modifies this`elapsed, this`status, this`current, this`events, this`lastHash, files
      ensures files.Valid() && Saved(View()) == Finished(cfg, env, old(View()), base)
      ensures files.journal == old(files.journal) + UnsavedFrom(|old(events)|, events)
    {
      hide UnsavedFrom, Files.Valid, Appended, LastHash;
      NothingUnsaved(events);
      elapsed := base + (env.ended - env.started);
      if status == Running && pending == [] {
        CompleteCampaign(env);
      }
    }

    method CompleteCampaign(env: Env)
      requires files.Valid() && cfg.hash == hash && lastHash == LastHash(events)
      modifies this`status, this`current, this`events, this`lastHash, files
      ensures files.Valid() && files.journal == old(files.journal) + UnsavedFrom(|old(events)|, events)
      ensures View() == Appended(cfg, env, old(View()).(status := Completed, current := None),
                                 Draft(CampaignFinished, 0, None, NoPolicy, CompletedOutcome,
                                       IterationCount(nextIteration - 1)))
    {
      hide UnsavedFrom, Files.Valid, Sealed, LastHash;
      status := Completed;
      current := None;
      AppendCampaignEvent(env.stamp(|events| + 1),
                          Draft(CampaignFinished, 0, None, NoPolicy, CompletedOutcome,
                                IterationCount(nextIteration - 1)));
    }

    /** Completion if nothing is pending, and the last save. */
    method Close(env: Env, base: real)
      requires files.Valid() && Bound() && ValidEnv(env)
      requires ClockForward(env) && Checkpointed(cfg, View()) && base >= 0.0
      modifies this`elapsed, this`status, this`current, this`events, this`lastHash, this`revision, files
      ensures files.Valid() && View() == Finished(cfg, env, old(View()), base) && files.checkpoint == Some(View())
      ensures files.journal == old(files.journal) + UnsavedFrom(|old(events)|, events) + [SaveCheckpoint(View())]
    {
      hide Inv, ValidConfig, ValidEnv, UnsavedFrom, Files.Valid, ValidState, Finished, LastHash;
      CloseValid(cfg, env, View(), base);
      Settle(env, base);
      var ok := SaveState();
      assert ok;
    }

    /**
     run_campaign.  `starting` says the caller passed no state: then the object must be fresh.
     Otherwise it was loaded from the checkpoint.  The answer, the final state and every write are
     those of Disk.Perform; a refusal changes nothing.
     */
    method RunCampaign(env: Env, starting: bool) returns (r: Result<(), Refusal>)
      requires files.Valid() && Bound() && ValidEnv(env) && ClockForward(env)
      requires Inv(cfg, View()) && elapsed >= 0.0
      requires if starting then View() == InitialState(cfg) else events != [] && files.checkpoint == Some(View())
      modifies this, files
      ensures files.Valid()
      ensures var p := Perform(cfg, old(files.View()), if starting then FreshRun(env) else ResumeRun(env));
        && (r.Err? <==> p.Err?) && (r.Err? ==> r.error == p.error)
        && (r.Err? ==> files.View() == old(files.View()) && View() == old(View()))
        && (r.Ok? ==> files.journal == old(files.journal) + p.value && View() == RunResult(cfg, env, old(View())))
        && (r.Ok? ==> files.View() == ApplyAll(old(files.View()), p.value) && files.checkpoint == Some(View()))
    {
      hide Inv, ValidConfig, ValidEnv, ClockForward, UnsavedFrom, Writes, LogMatches, Loop, Begun, Finished, ApplyAll;
      ghost var s0, j0, w0 := View(), files.journal, files.View();
      if !(Elements(completed + pending + skipped + stopped) <= Elements(Ids(objectives))) {
        assert starting ==> false by { KnownObjectives(cfg, s0); }
        return Err(UnknownObjectives);
      }
      if !Executable(status) {
        return Err(StatusRefused);
      }
      if starting && files.checkpoint.Some? {
        return Err(CheckpointExists);
      }
      if starting && files.log != [] {
        return Err(LogExists);
      }
      if events != [] {
        var bad := LogFailures();
        if bad {
          return Err(LogMismatch);
        }
      }
      RunAccepted(env);
      ApplyJournal(j0, Writes(|s0.events|, Run(cfg, env, s0)));
      r := Ok(());
    }

    /** The body of run_campaign once its checks have passed. */
    method RunAccepted(env: Env)
      requires files.Valid() && Bound() && ValidEnv(env) && ClockForward(env)
      requires Inv(cfg, View()) && elapsed >= 0.0 && Executable(status)
      modifies this, files
      ensures files.Valid() && View() == RunResult(cfg, env, old(View())) && files.checkpoint == Some(View())
      ensures files.journal == old(files.journal) + Writes(|old(events)|, Run(cfg, env, old(View())))
    {
      hide Inv, Checkpointed, ValidConfig, ValidEnv, ClockForward, UnsavedFrom, Writes, Emitted, Loop, Begun, Finished;
      hide Files.Valid, Run, RunResult, LastHash;
      ghost var s0 := View();
      RunFacts(cfg, env, s0);
      Open(env);
      var base := elapsed;
      RunUnderBudget(env);
      Close(env, base);
    }

    /** The budget is rebuilt from the checkpoint's counters on every call. */
    method RunUnderBudget(env: Env)
      requires files.Valid() && Bound() && ValidEnv(env) && ClockForward(env)
      requires Checkpointed(cfg, View()) && status == Running && elapsed >= 0.0
      modifies this, files
      ensures files.Valid()
      ensures var p := Loop(cfg, env, old(View()), 0, 0, old(elapsed));
        View() == p.s && files.journal == old(files.journal) + Emitted(|old(events)|, p)
    {
      hide Inv, ValidConfig, ValidEnv, ClockForward, Emitted, Loop, Files.Valid;
      var budget := new SafetyBudget(limits, Counters(nextIteration - 1, requests, minute, failures));
      RunLoop(env, budget, elapsed);
    }

    // ----- apply_review_decision and request_operator_stop -----

    /** The move an accepted decision makes, after its event was appended. */
    method MoveReviewed(r: Review, phase: Phase)
      modifies this`pending, this`completed, this`stopped, this`reviewed, this`current, this`status, this`operatorStop
      ensures View() == Decided(old(View()), r, phase)
    {
      hide StopObjective, CompleteObjective;
      match r.choice
      case Approved =>
        if phase == PreExecution {
          if r.objective !in reviewed {
            reviewed := reviewed + [r.objective];
          }
          current := None;
          status := ReadyToResume;
        } else {
          MoveToCompleted(r.objective, ReadyToResume);
        }
      case Denied =>
        MoveToStopped(r.objective, StoppedByCondition);
      case StopCampaign =>
        operatorStop := true;
        MoveToStopped(r.objective, StoppedByOperator);
    }

    /** apply_review_decision on the loaded checkpoint: the answer and the writes of Disk.Perform. */
    method ApplyReviewDecision(r: Review) returns (answer: Result<(), Refusal>)
      requires files.Valid() && Bound() && Checkpointed(cfg, View())
      requires elapsed >= 0.0 && files.checkpoint == Some(View())
      modifies this, files
      ensures files.Valid()
      ensures var p := Perform(cfg, old(files.View()), Decide(r));
        && (answer.Err? <==> p.Err?) && (answer.Err? ==> answer.error == p.error)
        && (answer.Err? ==> files.View() == old(files.View()) && View() == old(View()))
        && (answer.Ok? ==> files.journal == old(files.journal) + p.value)
        && (answer.Ok? ==> files.View() == ApplyAll(old(files.View()), p.value))
        && (answer.Ok? ==> View() == ApplyReview(cfg, old(View()), r) && files.checkpoint == Some(View()))
    {
      hide Inv, ValidConfig, UnsavedFrom, Writes, LogMatches, ApplyReview, ApplyAll;
      ghost var s0, j0 := View(), files.journal;
      if status != Paused || review.None? {
        return Err(NotPaused);
      }
      var bad := LogFailures();
      if bad {
        return Err(LogMismatch);
      }
      if r.decidedAt > r.handedInAt {
        return Err(FutureDecision);
      }
      if r.stateHash != identity.fileDigest(files.checkpoint.value) {
        return Err(StateHashWrong);
      }
      if r.campaign != identity.campaign {
        return Err(CampaignWrong);
      }
      if current != Some(r.objective) {
        return Err(ObjectiveWrong);
      }
      if r.operator != identity.operator {
        return Err(OperatorWrong);
      }
      ReviewAccepted(r);
      ApplyJournal(j0, Writes(|s0.events|, [ApplyReview(cfg, s0, r)]));
      answer := Ok(());
    }

    method LogReview(r: Review, phase: Phase)
      requires files.Valid() && cfg.hash == hash && lastHash == LastHash(events)
      modifies this`review, this`history, this`events, this`lastHash, files
      ensures files.Valid() && files.journal == old(files.journal) + UnsavedFrom(|old(events)|, events)
      ensures var e := Sealed(cfg.hash, old(events), r.stamp, ReviewDraft(old(View()), r, phase));
        View() == old(View()).(review := None,
                               history := old(history) + [ReviewNote(r.objective, r.choice, r.decisionId)],
                               events := old(events) + [e], lastHash := e.hash)
    {
      hide UnsavedFrom, Files.Valid, Sealed, LastHash;
      review := None;
      history := history + [ReviewNote(r.objective, r.choice, r.decisionId)];
      AppendCampaignEvent(r.stamp, Draft(ReviewDecision, nextIteration - 1, Some(r.objective), NoPolicy,
                                         ReviewOutcome(r.choice), Reviewed(r.decisionId, phase)));
    }

    method ReviewAccepted(r: Review)
      requires files.Valid() && Bound() && Checkpointed(cfg, View()) && elapsed >= 0.0
      requires status == Paused && review.Some? && current == Some(r.objective)
      modifies this, files
      ensures files.Valid() && View() == ApplyReview(cfg, old(View()), r) && files.checkpoint == Some(View())
      ensures files.journal == old(files.journal) + Writes(|old(events)|, [View()])
    {
      hide Inv, ValidConfig, UnsavedFrom, Writes, ValidState, Sealed, LastHash, Files.Valid, Decided;
      ghost var s := View();
      ReviewValid(cfg, s, r);
      var phase := review.value.phase;
      LogReview(r, phase);
      MoveReviewed(r, phase);
      assert Saved(View()) == ApplyReview(cfg, s, r);
      var ok := SaveState();
      assert ok;
    }

    /** The current objective, if any, leaves pending for stopped. */
    method ClearCurrent()
      modifies this`pending, this`stopped, this`current
      ensures View() == CurrentCleared(old(View()))
    {
      hide Remove;
      if current.Some? {
        var id := current.value;
        AbsentUnchanged(pending, id);
        if id in pending {
          pending := Remove(pending, id);
        }
        if id !in stopped {
          stopped := stopped + [id];
        }
        current := None;
      }
    }

    /** The state changes of an operator stop; the current objective is cleared before the event is logged. */
    method HaltState()
      modifies this`pending, this`stopped, this`current, this`status, this`operatorStop, this`review, this`history
      ensures View() == Halted(old(View()))
    {
      hide CurrentCleared, Remove;
      operatorStop := true;
      review := None;
      ClearCurrent();
      status := StoppedByOperator;
      history := history + [OperatorNote];
    }

    /** request_operator_stop: no look at the log, so it also follows a crash's leftovers. */
    method RequestOperatorStop(stamp: string) returns (answer: Result<(), Refusal>)
      requires files.Valid() && Bound() && Checkpointed(cfg, View())
      requires elapsed >= 0.0 && files.checkpoint == Some(View())
      modifies this, files
      ensures files.Valid()
      ensures var p := Perform(cfg, old(files.View()), Halt(stamp));
        && (answer.Err? <==> p.Err?) && (answer.Err? ==> answer.error == p.error)
        && (answer.Err? ==> files.View() == old(files.View()) && View() == old(View()))
        && (answer.Ok? ==> files.journal == old(files.journal) + p.value)
        && (answer.Ok? ==> files.View() == ApplyAll(old(files.View()), p.value))
        && (answer.Ok? ==> View() == OperatorStopped(cfg, old(View()), stamp) && files.checkpoint == Some(View()))
    {
      hide Inv, ValidConfig, UnsavedFrom, Writes, LogMatches, OperatorStopped, ApplyAll;
      ghost var s0, j0 := View(), files.journal;
      if status in {Completed, StoppedByOperator} {
        return Err(NotStoppable);
      }
      StopAccepted(stamp);
      ApplyJournal(j0, Writes(|s0.events|, [OperatorStopped(cfg, s0, stamp)]));
      answer := Ok(());
    }

    method StopAccepted(stamp: string)
      requires files.Valid() && Bound() && Checkpointed(cfg, View()) && elapsed >= 0.0
      requires status !in {Completed, StoppedByOperator}
      modifies this, files
      ensures files.Valid() && View() == OperatorStopped(cfg, old(View()), stamp) && files.checkpoint == Some(View())
      ensures files.journal == old(files.journal) + Writes(|old(events)|, [View()])
    {
      hide Inv, ValidConfig, UnsavedFrom, Writes, ValidState, Sealed, LastHash, Files.Valid, Halted;
      ghost var s := View();
      StopValid(cfg, s, stamp);
      HaltState();
      AppendCampaignEvent(stamp, Draft(OperatorStop, 0, None, NoPolicy, OperatorStopOutcome, NoDetails));
      assert Saved(View()) == OperatorStopped(cfg, s, stamp);
      var ok := SaveState();
      assert ok;
    }
  }

  lemma HeadEngineFacts(cfg: Config, s: State, o: Objective)
    requires AtHead(cfg, s, o)
    ensures s.lastHash == LastHash(s.events)
    ensures var m := Marked(s, o);
      && m.lastHash == LastHash(m.events) && m.minute == m.requests && m.events == s.events
      && CountersOf(m) == CountersOf(s)
  {
  }

  lemma EngineFacts(cfg: Config, s: State)
    requires Inv(cfg, s)
    ensures s.lastHash == LastHash(s.events) && s.minute == s.requests && s.revision >= 0
  {
  }

  lemma MarkedValid(cfg: Config, s: State, o: Objective)
    requires ValidConfig(cfg) && AtHead(cfg, s, o) && s.elapsed >= 0.0
    ensures ValidState(s.(current := Some(o.id)))
  {
    hide Inv, ValidConfig;
    MarkKeeps(cfg, s, o);
    InvariantPassesValidation(cfg, Marked(s, o));
    EngineFacts(cfg, s);
  }

  lemma ResultKeepsHash(cfg: Config, env: Env, s: State, o: Objective, a: Attempt)
    ensures ResultLogged(cfg, env, s, o, a).lastHash == LastHash(ResultLogged(cfg, env, s, o, a).events)
    ensures s.events <= ResultLogged(cfg, env, s, o, a).events
  {
  }

  lemma DisposedCounters(cfg: Config, env: Env, s: State, o: Objective, a: Attempt)
    ensures CountersOf(Disposed(cfg, env, s, o, a)) == CountersOf(s)
    ensures s.events <= Disposed(cfg, env, s, o, a).events
  {
  }

  lemma ExecutionValid(cfg: Config, env: Env, s: State, o: Objective, base: real)
    requires ValidConfig(cfg) && ValidEnv(env) && ClockForward(env) && AtHead(cfg, s, o) && base >= 0.0
    requires DenialFor(cfg, env, s, o, base).None? && Cleared(s, o)
    ensures var a := AttemptAt(env, Marked(s, o), o);
      var d := Disposed(cfg, env, ResultLogged(cfg, env, Marked(s, o), o, a), o, a);
      var t := d.(elapsed := base + (env.clock(s.nextIteration, IterationEnd) - env.started));
      ValidState(t) && Saved(t) == Executed(cfg, env, s, o, base)
  {
    hide Inv, ValidConfig, Disposed, ResultLogged;
    ExecutionKeeps(cfg, env, s, o, base);
    assert env.clock(s.nextIteration, IterationEnd) >= env.started;
    InvariantPassesValidation(cfg, Executed(cfg, env, s, o, base));
    EngineFacts(cfg, s);
    DisposedRevision(cfg, env, Marked(s, o), o);
    assert AttemptAt(env, Marked(s, o), o) == AttemptAt(env, s, o);
  }

  lemma DisposedRevision(cfg: Config, env: Env, s: State, o: Objective)
    ensures var a := AttemptAt(env, s, o);
      Disposed(cfg, env, ResultLogged(cfg, env, s, o, a), o, a).revision == s.revision
  {
  }

  /** Save; append the result and perhaps the pause; save. */
  lemma ExecutionWrites(cfg: Config, env: Env, s: State, o: Objective, base: real)
    ensures var m := Marked(s, o); var a := AttemptAt(env, m, o); var r := ResultLogged(cfg, env, m, o, a);
      var d := Disposed(cfg, env, r, o, a); var t := Executed(cfg, env, s, o, base);
      Writes(|s.events|, [m, t])
        == [SaveCheckpoint(m)] + UnsavedFrom(|s.events|, r.events)
           + UnsavedFrom(|r.events|, d.events) + [SaveCheckpoint(t)]
  {
    hide Disposed, ResultLogged, Writes, UnsavedFrom;
    var m := Marked(s, o);
    var a := AttemptAt(env, m, o);
    var r := ResultLogged(cfg, env, m, o, a);
    var d := Disposed(cfg, env, r, o, a);
    var t := Executed(cfg, env, s, o, base);
    ResultKeepsHash(cfg, env, m, o, a);
    DisposedCounters(cfg, env, r, o, a);
    WritesStep(|s.events|, [m, t]);
    NothingUnsaved(s.events);
    assert [m, t][1..] == [t];
    OneBatch(|s.events|, t);
    UnsavedExtends(|s.events|, r.events, d.events);
  }

  // ----- Saves and writes of each branch -----

  lemma ValidBeforeSave(cfg: Config, t: State)
    requires ValidConfig(cfg) && Inv(cfg, Saved(t)) && t.elapsed >= 0.0 && t.revision >= 0
    ensures ValidState(t)
  {
    hide Inv, ValidConfig;
    InvariantPassesValidation(cfg, Saved(t));
  }

  lemma OneSaveEmits(logged: nat, t: State)
    requires logged <= |t.events|
    ensures Emitted(logged, Progress(Saved(t), [Saved(t)]))
         == UnsavedFrom(logged, t.events) + [SaveCheckpoint(Saved(t))]
  {
    hide UnsavedFrom, Writes;
    OneBatch(logged, Saved(t));
    NothingUnsaved(t.events);
  }

  lemma FuzzingStopSaves(cfg: Config, env: Env, s: State, o: Objective)
    requires ValidConfig(cfg) && AtHead(cfg, s, o) && s.elapsed >= 0.0
    ensures var t := FuzzingStopped(cfg, env, s, o);
      && ValidState(t) && t.status != Running
      && Emitted(|s.events|, Progress(Saved(t), [Saved(t)]))
         == UnsavedFrom(|s.events|, t.events) + [SaveCheckpoint(Saved(t))]
  {
    hide Inv, ValidConfig, UnsavedFrom, Emitted;
    EngineFacts(cfg, s);
    FuzzingStopKeeps(cfg, env, s, o);
    ValidBeforeSave(cfg, FuzzingStopped(cfg, env, s, o));
    OneSaveEmits(|s.events|, FuzzingStopped(cfg, env, s, o));
  }

  lemma LockoutPauseSaves(cfg: Config, env: Env, s: State, o: Objective)
    requires ValidConfig(cfg) && AtHead(cfg, s, o) && s.elapsed >= 0.0 && o.id !in s.reviewed
    ensures var t := LockoutPaused(cfg, env, s, o);
      && ValidState(t) && t.status != Running
      && Emitted(|s.events|, Progress(Saved(t), [Saved(t)]))
         == UnsavedFrom(|s.events|, t.events) + [SaveCheckpoint(Saved(t))]
  {
    hide Inv, ValidConfig, UnsavedFrom, Emitted;
    EngineFacts(cfg, s);
    LockoutPauseKeeps(cfg, env, s, o);
    ValidBeforeSave(cfg, LockoutPaused(cfg, env, s, o));
    OneSaveEmits(|s.events|, LockoutPaused(cfg, env, s, o));
  }

  lemma PreExecutionStopWrites(cfg: Config, env: Env, s: State, o: Objective, why: StopReason)
    ensures var t := PreExecutionStopped(cfg, env, s, o, why);
      && t.status != Running && Emitted(|s.events|, Progress(t, [])) == UnsavedFrom(|s.events|, t.events)
  {
    hide UnsavedFrom;
  }

  lemma ExecutionEmits(cfg: Config, env: Env, s: State, o: Objective, base: real)
    ensures var t := Executed(cfg, env, s, o, base); var saves := [Marked(s, o), t];
      Emitted(|s.events|, Progress(t, saves)) == Writes(|s.events|, saves)
  {
    hide Writes, Executed;
    NothingUnsaved(Executed(cfg, env, s, o, base).events);
  }

  // ----- The run as a whole -----

  lemma AppendedHash(cfg: Config, env: Env, s: State, d: Draft)
    ensures Appended(cfg, env, s, d).lastHash == LastHash(Appended(cfg, env, s, d).events)
  {
  }

  lemma OpenValid(cfg: Config, env: Env, s: State)
    requires ValidConfig(cfg) && Inv(cfg, s) && Executable(s.status) && s.elapsed >= 0.0
    ensures s.lastHash == LastHash(s.events)
    ensures var t := Begun(cfg, env, s).(revision := s.revision);
      && ValidState(t) && Saved(t) == Begun(cfg, env, s)
      && Writes(|s.events|, [Begun(cfg, env, s)])
         == UnsavedFrom(|s.events|, t.events) + [SaveCheckpoint(Begun(cfg, env, s))]
      && s.events <= t.events
  {
    hide Inv, ValidConfig, UnsavedFrom, Writes;
    EngineFacts(cfg, s);
    BegunKeeps(cfg, env, s);
    ValidBeforeSave(cfg, Begun(cfg, env, s).(revision := s.revision));
    OneBatch(|s.events|, Begun(cfg, env, s));
  }

  lemma ScheduleIsOrder(cfg: Config, r: Result<seq<Objective>, Scheduler.SchedulingError>)
    requires ValidConfig(cfg)
    requires r.Ok? <==> Known(ById(cfg.objectives)) && Acyclic(ById(cfg.objectives))
    requires r.Ok? ==> Canonical(ById(cfg.objectives), r.value)
    ensures r.Ok? && r.value == cfg.order
  {
    CanonicalIsTopological(ById(cfg.objectives), cfg.order);
    CanonicalUnique(ById(cfg.objectives), cfg.order, r.value);
  }

  lemma {:induction false} LoopEnds(cfg: Config, env: Env, s: State, k: nat, steps: nat, base: real)
    requires k >= |cfg.order| || (cfg.order[k].id in s.pending && OutOfSteps(env, steps))
    ensures Loop(cfg, env, s, k, steps, base) == Progress(s, [])
    ensures Emitted(|s.events|, Loop(cfg, env, s, k, steps, base)) == []
  {
    NothingEmitted(s);
  }

  lemma LoopPasses(cfg: Config, env: Env, s: State, k: nat, steps: nat, base: real)
    requires k < |cfg.order| && cfg.order[k].id !in s.pending
    ensures Loop(cfg, env, s, k, steps, base) == Loop(cfg, env, s, k + 1, steps, base)
  {
  }

  /** A visit leaves the invariant, the clock and the remaining loop as the method's loop needs them. */
  lemma LoopStepFacts(cfg: Config, env: Env, s: State, o: Objective, k: nat, steps: nat, base: real)
    requires ValidConfig(cfg) && ValidEnv(env) && ClockForward(env) && AtHead(cfg, s, o)
    requires k < |cfg.order| && o == cfg.order[k] && k <= |s.completed| && !OutOfSteps(env, steps)
    requires s.elapsed >= 0.0 && base >= 0.0
    ensures var v := Visit(cfg, env, s, o, base);
      && (v.s.status == Running ==>
            && Checkpointed(cfg, v.s) && v.s.elapsed >= 0.0 && k + 1 <= |v.s.completed|
            && Loop(cfg, env, s, k, steps, base).s == Loop(cfg, env, v.s, k + 1, steps + 1, base).s
            && Emitted(|s.events|, Loop(cfg, env, s, k, steps, base))
               == Emitted(|s.events|, v) + Emitted(|v.s.events|, Loop(cfg, env, v.s, k + 1, steps + 1, base)))
      && (v.s.status != Running ==> Loop(cfg, env, s, k, steps, base) == v)
  {
    hide Inv, ValidConfig, ValidEnv, ClockForward, Visit, Emitted;
    RunningFacts(cfg, s);
    HeadFacts(cfg, s);
    VisitKeeps(cfg, env, s, o, base);
    VisitTimed(cfg, env, s, o, base);
    VisitGrows(cfg, env, s, o, base);
    VisitStatus(cfg, env, s, o, base);
    var v := Visit(cfg, env, s, o, base);
    if v.s.status == Running {
      EmittedJoins(|s.events|, v, Loop(cfg, env, v.s, k + 1, steps + 1, base));
    }
  }

  lemma CloseValid(cfg: Config, env: Env, s: State, base: real)
    requires ValidConfig(cfg) && ValidEnv(env) && ClockForward(env) && Checkpointed(cfg, s) && base >= 0.0
    ensures s.lastHash == LastHash(s.events)
    ensures ValidState(Finished(cfg, env, s, base).(revision := s.revision))
  {
    hide Inv, ValidConfig, ValidEnv;
    EngineFacts(cfg, s);
    FinishedKeeps(cfg, env, s, base);
    ValidBeforeSave(cfg, Finished(cfg, env, s, base).(revision := s.revision));
  }

  /** How the three parts of a run fit together. */
  lemma {:induction false} RunFacts(cfg: Config, env: Env, s: State)
    requires ValidConfig(cfg) && ValidEnv(env) && ClockForward(env)
    requires Inv(cfg, s) && s.elapsed >= 0.0 && Executable(s.status)
    ensures var b := Begun(cfg, env, s); var p := Loop(cfg, env, b, 0, 0, b.elapsed);
      var f := Finished(cfg, env, p.s, b.elapsed);
      && Checkpointed(cfg, b) && b.status == Running && b.elapsed >= 0.0 && Checkpointed(cfg, p.s)
      && RunResult(cfg, env, s) == f
      && Writes(|s.events|, Run(cfg, env, s))
         == Writes(|s.events|, [b]) + Emitted(|b.events|, p) + UnsavedFrom(|p.s.events|, f.events) + [SaveCheckpoint(f)]
  {
    hide Inv, ValidConfig, ValidEnv, ClockForward, UnsavedFrom, Writes, Emitted, Loop, Begun, Finished;
    BegunKeeps(cfg, env, s);
    var b := Begun(cfg, env, s);
    LoopKeeps(cfg, env, b, 0, 0, b.elapsed);
    var p := Loop(cfg, env, b, 0, 0, b.elapsed);
    var f := Finished(cfg, env, p.s, b.elapsed);
    FinishedKeeps(cfg, env, p.s, b.elapsed);
    assert Committed(|b.events|, p.saves) == |CommittedEvents(b.events, p.saves)|;
    EmittedCloses(|b.events|, p, f);
    WritesConcat(|s.events|, [b], p.saves + [f]);
    assert Run(cfg, env, s) == [b] + (p.saves + [f]);
  }

  lemma ApplyJournal(journal: seq<Write>, more: seq<Write>)
    ensures ApplyAll(Workspace([], None), journal + more) == ApplyAll(ApplyAll(Workspace([], None), journal), more)
  {
    ApplySplit(Workspace([], None), journal, more);
  }

  lemma {:induction false} AbsentUnchanged(s: seq<Id>, x: Id)
    ensures x !in s ==> Remove(s, x) == s
  {
    if s != [] {
      AbsentUnchanged(s[1..], x);
    }
  }

  lemma ReviewValid(cfg: Config, s: State, r: Review)
    requires ValidConfig(cfg) && Checkpointed(cfg, s) && s.status == Paused
    requires s.current == Some(r.objective) && s.elapsed >= 0.0
    ensures s.lastHash == LastHash(s.events) && s.review.Some?
    ensures var t := ApplyReview(cfg, s, r);
      && ValidState(t.(revision := s.revision))
      && Writes(|s.events|, [t]) == UnsavedFrom(|s.events|, t.events) + [SaveCheckpoint(t)]
  {
    hide ValidConfig, UnsavedFrom, Writes, Recorded, Dispositions, ReviewedShape;
    EngineFacts(cfg, s);
    ReviewKeeps(cfg, s, r);
    ValidBeforeSave(cfg, ApplyReview(cfg, s, r).(revision := s.revision));
    OneBatch(|s.events|, ApplyReview(cfg, s, r));
  }

  lemma StopValid(cfg: Config, s: State, stamp: string)
    requires ValidConfig(cfg) && Checkpointed(cfg, s) && s.status !in {Completed, StoppedByOperator} && s.elapsed >= 0.0
    ensures s.lastHash == LastHash(s.events)
    ensures var t := OperatorStopped(cfg, s, stamp);
      && ValidState(t.(revision := s.revision))
      && Writes(|s.events|, [t]) == UnsavedFrom(|s.events|, t.events) + [SaveCheckpoint(t)]
  {
    hide Inv, ValidConfig, UnsavedFrom, Writes;
    EngineFacts(cfg, s);
    OperatorStopKeeps(cfg, s, stamp);
    ValidBeforeSave(cfg, OperatorStopped(cfg, s, stamp).(revision := s.revision));
    OneBatch(|s.events|, OperatorStopped(cfg, s, stamp));
  }
}
