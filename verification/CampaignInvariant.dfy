/**
 The invariant of campaign checkpoints: what holds of every state the engine saves, over whole
 runs with their pauses, reviews, resumes and stops.
 */
module CampaignInvariant {
  import opened Basics
  import opened Objectives
  import opened EventLog
  import opened CampaignState
  import opened CampaignSpec

  // ----- Dispositions and status -----

  /** completed ++ stopped ++ pending is the schedule; at most one stopped, none skipped. */
  ghost predicate Dispositions(cfg: Config, s: State) {
    s.completed + s.stopped + s.pending == Ids(cfg.order) && |s.stopped| <= 1 && s.skipped == []
  }

  predicate AwaitingReview(s: State, phase: Phase) {
    s.status == Paused && s.review.Some? && s.review.value.phase == phase
  }

  ghost predicate StatusShape(s: State) {
    && (s.status in {Planned, Running, Paused, ReadyToResume} ==> s.stopped == [])
    && (s.review.Some? <==> s.status == Paused)
    && (s.status == Paused ==> s.current == Some(s.review.value.objective))
    && (s.current.Some? ==> s.status in {Running, Paused} && s.pending != [] && s.current.value == s.pending[0])
    && (s.status == Completed ==> s.pending == [] && s.stopped == [])
    && (s.status in {StoppedByPolicy, StoppedByBudget, StoppedByCondition} ==> |s.stopped| == 1)
    && (s.operatorStop <==> s.status == StoppedByOperator)
    && s.status != Failed
  }

  /** Only finished objectives and the head of pending have been reviewed. */
  ghost predicate ReviewedShape(s: State) {
    && Distinct(s.reviewed)
    && (forall r :: r in s.reviewed ==> r in s.completed + s.stopped || (s.pending != [] && r == s.pending[0]))
    && (AwaitingReview(s, PreExecution) && s.pending != [] ==> s.pending[0] !in s.reviewed)
  }

  ghost predicate Shape(cfg: Config, s: State) {
    Dispositions(cfg, s) && StatusShape(s) && ReviewedShape(s)
  }

  // ----- Counters -----

  /** How far past max_iterations the iteration count may be: lockout pauses and stops skip the budget. */
  function Slack(s: State): nat {
    if Terminal(s.status) then 2
    else if AwaitingReview(s, PostExecution) then 0
    else if s.pending != [] && (s.pending[0] in s.reviewed || AwaitingReview(s, PreExecution)) then 1
    else 0
  }

  ghost predicate Metered(cfg: Config, s: State) {
    && 1 <= s.nextIteration && s.nextIteration - 1 <= cfg.limits.maxIterations + Slack(s)
    && s.minute == s.requests && s.failures >= 0 && s.revision >= 0
    && 0 <= s.requests <= cfg.limits.MaxRequests() && s.requests <= cfg.limits.requestsPerMinute
    && (s.status == Paused ==> s.nextIteration >= 2)
  }

  // ----- What the event log shows -----

  datatype Mark = AnyResult | RunOf(id: Id) | GateOf(id: Id)

  /** A gate result is an objective_result whose only refusal is missing human approval. */
  predicate Matches(e: Event, m: Mark) {
    var d := e.body.draft;
    d.kind == ObjectiveResult
    && match m
       case AnyResult => true
       case RunOf(id) => d.objective == Some(id) && d.policy != GateDecision([HumanApprovalRequired])
       case GateOf(id) => d.objective == Some(id) && d.policy == GateDecision([HumanApprovalRequired])
  }

  function Count(events: seq<Event>, m: Mark): nat {
    if events == [] then 0
    else Count(events[..|events| - 1], m) + if Matches(events[|events| - 1], m) then 1 else 0
  }

  lemma CountSnoc(events: seq<Event>, e: Event, m: Mark)
    ensures Count(events + [e], m) == Count(events, m) + if Matches(e, m) then 1 else 0
  {
    assert (events + [e])[..|events|] == events;
  }

  lemma {:induction false} CountPrefix(events: seq<Event>, n: nat, m: Mark)
    requires n <= |events|
    ensures Count(events[..n], m) <= Count(events, m)
  {
    if n < |events| {
      var init := events[..|events| - 1];
      assert init[..n] == events[..n];
      CountPrefix(init, n, m);
    } else {
      assert events[..n] == events;
    }
  }

  ghost predicate ApprovalAt(e: Event, id: Id, phase: Phase) {
    var d := e.body.draft;
    && d.kind == ReviewDecision && d.objective == Some(id) && d.outcome == ReviewOutcome(Approved)
    && d.details.Reviewed? && d.details.of == phase
  }

  /** An approved review of this objective in this phase is in the log. */
  ghost predicate ApprovalLogged(events: seq<Event>, id: Id, phase: Phase) {
    exists i :: 0 <= i < |events| && ApprovalAt(events[i], id, phase)
  }

  ghost predicate NeedsReview(cfg: Config, id: Id) {
    exists o :: o in cfg.order && o.id == id && (o.requiresApproval || o.lockoutRisk)
  }

  /** The gate allowed this run and it did not end in manual review. */
  ghost predicate AllowedRun(e: Event, id: Id) {
    var d := e.body.draft;
    && d.kind == ObjectiveResult && d.objective == Some(id) && d.policy == GateDecision([])
    && d.outcome != VerdictOutcome(ManualReview)
  }

  ghost predicate CompletionAt(cfg: Config, events: seq<Event>, id: Id, j: nat)
    requires j < |events|
  {
    || (AllowedRun(events[j], id) && (NeedsReview(cfg, id) ==> ApprovalLogged(events[..j], id, PreExecution)))
    || ApprovalAt(events[j], id, PostExecution)
  }

  /**
   The log shows how this objective came to be completed: an allowed dry run (preceded by an
   approved review where one was needed), or an approved review after execution.
   */
  ghost predicate Justified(cfg: Config, events: seq<Event>, id: Id) {
    exists j :: 0 <= j < |events| && CompletionAt(cfg, events, id, j)
  }

  ghost predicate DependenciesJustified(cfg: Config, events: seq<Event>, j: nat)
    requires j < |events|
  {
    events[j].body.draft.kind == ObjectiveResult ==>
      exists o :: o in cfg.order && events[j].body.draft.objective == Some(o.id)
        && forall d :: d in o.dependsOn ==> Justified(cfg, events[..j], d)
  }

  /** What every log the engine leaves behind satisfies, even one left by a crash. */
  ghost predicate LogSafe(cfg: Config, events: seq<Event>) {
    && (forall id :: Count(events, RunOf(id)) <= 1)
    && (forall id :: Count(events, GateOf(id)) <= 1)
    && Count(events, AnyResult) <= cfg.limits.maxIterations
    && (forall j :: 0 <= j < |events| ==> DependenciesJustified(cfg, events, j))
  }

  /** Pending objectives have not run; only the head may have met the human gate or await review. */
  ghost predicate PendingUntouched(s: State) {
    forall id :: id in s.pending ==>
      && (Count(s.events, RunOf(id)) == 0 || (id == s.pending[0] && AwaitingReview(s, PostExecution)))
      && (Count(s.events, GateOf(id)) == 0
          || (id == s.pending[0] && (id in s.reviewed || AwaitingReview(s, PreExecution))))
  }

  ghost predicate Recorded(cfg: Config, s: State) {
    && Chained(cfg.hash, s.events) && s.lastHash == LastHash(s.events)
    && LogSafe(cfg, s.events) && PendingUntouched(s)
    && Count(s.events, AnyResult) <= s.nextIteration - 1
    && (forall id :: id in s.completed ==> Justified(cfg, s.events, id))
    && (forall id :: id in s.reviewed ==> ApprovalLogged(s.events, id, PreExecution))
  }

  ghost predicate Inv(cfg: Config, s: State) {
    Shape(cfg, s) && Metered(cfg, s) && Recorded(cfg, s)
  }

  /** A checkpoint as it is saved. */
  ghost predicate Checkpointed(cfg: Config, s: State) {
    Inv(cfg, s) && s.events != [] && s.status != Planned
  }

  // ----- Consequences of the invariant -----

  lemma OrderDistinct(cfg: Config)
    requires ValidConfig(cfg)
    ensures Distinct(Ids(cfg.order)) && Topological(ById(cfg.objectives), Ids(cfg.order))
  {
    CanonicalIsTopological(ById(cfg.objectives), cfg.order);
  }

  lemma PartsApart(a: seq<Id>, b: seq<Id>, c: seq<Id>)
    requires Distinct(a + b + c)
    ensures Distinct(a) && Distinct(b) && Distinct(c)
    ensures Apart(a, b) && Apart(a, c) && Apart(b, c)
  {
    var all := a + b + c;
    assert forall i :: 0 <= i < |a| ==> a[i] == all[i];
    assert forall i :: 0 <= i < |b| ==> b[i] == all[|a| + i];
    assert forall i :: 0 <= i < |c| ==> c[i] == all[|a| + |b| + i];
  }

  /** The hash a state ends in is one of the event hash, so it has a digest's form. */
  lemma LastHashForm(cfg: Config, s: State)
    requires ValidConfig(cfg) && Recorded(cfg, s)
    ensures s.lastHash.Some? ==> DigestForm(s.lastHash.value)
  {
    hide DigestForm, LogSafe, Count, Justified, ApprovalLogged;
    if s.events != [] {
      assert ChainedAt(cfg.hash, s.events, |s.events| - 1);
      assert DigestForm(cfg.hash(s.events[|s.events| - 1].body));
    }
  }

  /** The lists of a state hold no objective twice, and no two of them share one. */
  lemma ListsApart(cfg: Config, s: State)
    requires ValidConfig(cfg) && Dispositions(cfg, s) && Distinct(s.reviewed)
    ensures NoDuplicates(s.completed) && NoDuplicates(s.pending) && NoDuplicates(s.stopped) && NoDuplicates(s.reviewed)
    ensures Apart(s.completed, s.pending) && Apart(s.completed, s.stopped) && Apart(s.pending, s.stopped)
    ensures s.skipped == []
  {
    hide ValidConfig, Distinct;
    OrderDistinct(cfg);
    PartsApart(s.completed, s.stopped, s.pending);
    DistinctSize(s.completed);
    DistinctSize(s.stopped);
    DistinctSize(s.pending);
    DistinctSize(s.reviewed);
  }

  lemma NothingSkipped(a: seq<Id>)
    ensures NoDuplicates([]) && Apart(a, []) && Apart([], a)
  {
  }

  /** Every state the invariant admits passes validate_state. */
  lemma InvariantPassesValidation(cfg: Config, s: State)
    requires ValidConfig(cfg) && Inv(cfg, s) && s.elapsed >= 0.0
    ensures ValidIdentity(cfg.identity) && ValidState(s)
  {
    hide Recorded, ValidConfig, ValidIdentity, Distinct, DigestForm, NoDuplicates, Apart, Dispositions;
    IdentityValid(cfg);
    LastHashForm(cfg, s);
    ListsApart(cfg, s);
    NothingSkipped(s.completed);
    NothingSkipped(s.pending);
    NothingSkipped(s.stopped);
  }

  lemma IdentityValid(cfg: Config)
    requires ValidConfig(cfg)
    ensures ValidIdentity(cfg.identity)
  {
  }

  /** The head of pending stands in the schedule right after the completed objectives. */
  lemma HeadFacts(cfg: Config, s: State)
    requires ValidConfig(cfg) && Dispositions(cfg, s) && s.stopped == [] && s.pending != []
    ensures |s.completed| < |cfg.order|
    ensures HeadObjective(cfg, s).id == s.pending[0] && HeadObjective(cfg, s) in cfg.order
    ensures s.pending[0] !in s.completed && s.pending[0] !in s.pending[1..]
    ensures Elements(HeadObjective(cfg, s).dependsOn) <= Elements(s.completed)
    ensures forall o :: o in cfg.order && o.id == s.pending[0] ==> o == HeadObjective(cfg, s)
  {
    OrderDistinct(cfg);
    var all, n := Ids(cfg.order), |s.completed|;
    assert all[n] == s.pending[0];
    assert all[..n] == s.completed && all[n + 1..] == s.pending[1..];
    var o := HeadObjective(cfg, s);
    CanonicalIsTopological(ById(cfg.objectives), cfg.order);
    forall d | d in o.dependsOn ensures d in s.completed {
      assert d in ById(cfg.objectives)[all[n]].dependsOn;
      assert d in all[..n];
    }
  }

  /** Position k of the schedule is pending exactly from the head on. */
  lemma PendingPosition(cfg: Config, s: State, k: nat)
    requires ValidConfig(cfg) && Dispositions(cfg, s) && s.stopped == [] && k < |cfg.order|
    ensures cfg.order[k].id in s.pending <==> |s.completed| <= k
  {
    OrderDistinct(cfg);
    var all := Ids(cfg.order);
    assert all[k] == cfg.order[k].id;
    if k < |s.completed| {
      forall i | 0 <= i < |s.pending| ensures s.pending[i] != all[k] {
        assert all[|s.completed| + i] == s.pending[i];
      }
    } else {
      assert s.pending[k - |s.completed|] == all[k];
    }
  }
}
