/**
 The campaign checkpoint (src/aotp/campaign_state.py) and the safety budget
 (src/aotp/safety_budget.py).
 */
module CampaignState {
  import opened Basics
  import opened Objectives
  import opened EventLog

  datatype Status =
    | Planned | Running | Paused | ReadyToResume | Completed
    | StoppedByPolicy | StoppedByOperator | StoppedByBudget | StoppedByCondition | Failed

  predicate Terminal(s: Status) {
    s in {Completed, StoppedByPolicy, StoppedByOperator, StoppedByBudget, StoppedByCondition, Failed}
  }

  predicate Executable(s: Status) {
    s in {Running, ReadyToResume, Planned}
  }

  datatype PendingReview = PendingReview(objective: Id, phase: Phase)

  /** An entry of stop_condition_history. */
  datatype StopNote =
    | StopReasonNote(why: StopReason) | LockoutNote(id: Id) | SignalNote(signal: string)
    | ApprovalNote(id: Id) | PolicyNoteEntry(reason: Reason) | ReviewNeededNote(id: Id)
    | ReviewNote(id: Id, choice: ReviewChoice, decisionId: string) | OperatorNote

  datatype State = State(
    status: Status,
    pending: seq<Id>, completed: seq<Id>, stopped: seq<Id>, skipped: seq<Id>, reviewed: seq<Id>,
    current: Option<Id>, review: Option<PendingReview>, operatorStop: bool,
    nextIteration: int, revision: int, requests: int, minute: int, failures: int, elapsed: real,
    history: seq<StopNote>, events: seq<Event>, lastHash: Option<Digest>)

  /** As the source tests it: the list is as long as the set of its elements. */
  predicate NoDuplicates(s: seq<Id>) {
    |s| == |Elements(s)|
  }

  predicate Apart(a: seq<Id>, b: seq<Id>) {
    Elements(a) * Elements(b) == {}
  }

  /** validate_state: the checks every checkpoint passes when it is saved and when it is loaded. */
  predicate ValidState(s: State) {
    && s.revision >= 0 && s.nextIteration >= 1 && s.elapsed >= 0.0
    && s.failures >= 0 && s.requests >= 0 && s.minute >= 0
    && NoDuplicates(s.completed) && NoDuplicates(s.pending) && NoDuplicates(s.skipped) && NoDuplicates(s.stopped)
    && Apart(s.completed, s.pending) && Apart(s.completed, s.skipped) && Apart(s.completed, s.stopped)
    && Apart(s.pending, s.skipped) && Apart(s.pending, s.stopped) && Apart(s.skipped, s.stopped)
    && (s.status == Completed ==> s.pending == [] && s.stopped == [] && s.current.None? && s.review.None?)
    && (s.status == Paused ==> s.current.Some? && s.review.Some?)
    && (s.status != Paused ==> s.review.None?)
    && NoDuplicates(s.reviewed)
    && (s.lastHash.Some? ==> DigestForm(s.lastHash.value))
  }

  lemma NoDuplicatesExactly(s: seq<Id>)
    ensures NoDuplicates(s) <==> Distinct(s)
  {
    if NoDuplicates(s) {
      UniqueMeansDistinct(s);
    } else if Distinct(s) {
      DistinctSize(s);
    }
  }

  lemma ListsTogether(a: seq<Id>, b: seq<Id>, c: seq<Id>, d: seq<Id>)
    ensures Distinct(a + b + c + d) <==>
      && NoDuplicates(a) && NoDuplicates(b) && NoDuplicates(c) && NoDuplicates(d)
      && Apart(a, b) && Apart(a, c) && Apart(a, d) && Apart(b, c) && Apart(b, d) && Apart(c, d)
  {
    hide NoDuplicates, Distinct, Apart;
    NoDuplicatesExactly(a);
    NoDuplicatesExactly(b);
    NoDuplicatesExactly(c);
    NoDuplicatesExactly(d);
    DistinctParts(a, b);
    DistinctParts(a + b, c);
    DistinctParts(a + b + c, d);
    ApartExactly(a, b);
    ApartExactly(a, c);
    ApartExactly(a, d);
    ApartExactly(b, c);
    ApartExactly(b, d);
    ApartExactly(c, d);
  }

  lemma ApartExactly(a: seq<Id>, b: seq<Id>)
    ensures Apart(a, b) <==> forall x :: x in a ==> x !in b
  {
    assert forall x :: x in a && x in b <==> x in Elements(a) * Elements(b);
  }

  /**
   What validate_state's comparisons come to together: no objective stands twice in the four lists, a
   review is pending exactly while paused, and the signs, the completed shape and the hash form hold.
   */
  lemma ValidStateExactly(s: State)
    ensures ValidState(s) <==>
      && Distinct(s.completed + s.pending + s.skipped + s.stopped) && Distinct(s.reviewed)
      && (s.status == Paused <==> s.review.Some?) && (s.status == Paused ==> s.current.Some?)
      && (s.status == Completed ==> s.pending == [] && s.stopped == [] && s.current.None?)
      && s.revision >= 0 && s.nextIteration > 0 && s.elapsed >= 0.0
      && s.failures >= 0 && s.requests >= 0 && s.minute >= 0
      && (s.lastHash.Some? ==>
            && |s.lastHash.value| == 64
            && forall c :: c in s.lastHash.value ==> '0' <= c <= '9' || 'a' <= c <= 'f')
  {
    hide NoDuplicates, Distinct, Apart;
    ListsTogether(s.completed, s.pending, s.skipped, s.stopped);
    NoDuplicatesExactly(s.reviewed);
    if s.lastHash.Some? {
      DigestFormExactly(s.lastHash.value);
    }
  }

  lemma DigestFormExactly(d: Digest)
    ensures DigestForm(d) <==> |d| == 64 && forall c :: c in d ==> '0' <= c <= '9' || 'a' <= c <= 'f'
  {
    if DigestForm(d) {
      forall c | c in d ensures '0' <= c <= '9' || 'a' <= c <= 'f' {
        var i :| 0 <= i < |d| && d[i] == c;
        assert d[i] in "0123456789abcdef";
      }
    }
    if forall c :: c in d ==> '0' <= c <= '9' || 'a' <= c <= 'f' {
      forall i | 0 <= i < |d| ensures d[i] in "0123456789abcdef" {
        assert d[i] in d;
        HexDigit(d[i]);
      }
    }
  }

  lemma HexDigit(c: char)
    requires '0' <= c <= '9' || 'a' <= c <= 'f'
    ensures c in "0123456789abcdef"
  {
    var digits := "0123456789abcdef";
    assert c == digits[if c <= '9' then c as int - '0' as int else c as int - 'a' as int + 10];
  }

  /**
   The fields of a checkpoint that never change during a campaign, with the digest of a saved
   checkpoint file.
   */
  datatype Identity = Identity(
    schemaVersion: string, campaign: string, name: string, operator: string, definitionHash: Digest, scopeHash: Digest,
    fileDigest: State -> Digest)

  /** What validate_state asks of them. */
  predicate ValidIdentity(i: Identity) {
    && i.schemaVersion == "1.0" && i.campaign != "" && i.name != ""
    && DigestForm(i.definitionHash) && DigestForm(i.scopeHash)
  }

  // ----- Budgets -----

  datatype Limits = Limits(
    maxIterations: nat, maxRuntimeSeconds: nat, campaignMaxRequests: nat, scopeMaxRequests: nat,
    requestsPerMinute: nat, maxFailures: nat)
  {
    function MaxRequests(): nat {
      if campaignMaxRequests <= scopeMaxRequests then campaignMaxRequests else scopeMaxRequests
    }
  }

  /** The counters a SafetyBudget holds. */
  datatype Counters = Counters(iterations: int, requests: int, minute: int, failures: int)

  /** The first exhausted limit, in the order the source tests them. */
  function Denial(l: Limits, c: Counters, elapsed: real, proposed: nat): (r: Option<StopReason>)
    ensures r.None? <==>
      && c.iterations < l.maxIterations && elapsed < l.maxRuntimeSeconds as real
      && c.requests + proposed <= l.MaxRequests() && c.minute + proposed <= l.requestsPerMinute
      && c.failures < l.maxFailures
  {
    if c.iterations >= l.maxIterations then Some(IterationLimit)
    else if elapsed >= l.maxRuntimeSeconds as real then Some(RuntimeLimit)
    else if c.requests + proposed > l.MaxRequests() then Some(RequestLimit)
    else if c.minute + proposed > l.requestsPerMinute then Some(RateLimit)
    else if c.failures >= l.maxFailures then Some(ConsecutiveFailureLimit)
    else None
  }

  function Charged(c: Counters, requests: nat, failed: bool): Counters {
    Counters(c.iterations + 1, c.requests + requests, c.minute + requests, if failed then c.failures + 1 else 0)
  }

  class SafetyBudget {
    const limits: Limits
    var iterations: int
    var requests: int
    var currentMinuteRequests: int
    var consecutiveFailures: int

    constructor (limits: Limits, c: Counters)
      ensures this.limits == limits && View() == c
    {
      this.limits := limits;
      iterations, requests := c.iterations, c.requests;
      currentMinuteRequests, consecutiveFailures := c.minute, c.failures;
    }

    function View(): Counters
      reads this
    {
      Counters(iterations, requests, currentMinuteRequests, consecutiveFailures)
    }

    method DenialReason(elapsed: real, proposed: nat) returns (r: Option<StopReason>)
      ensures r == Denial(limits, View(), elapsed, proposed)
    {
      if iterations >= limits.maxIterations {
        return Some(IterationLimit);
      }
      if elapsed >= limits.maxRuntimeSeconds as real {
        return Some(RuntimeLimit);
      }
      if requests + proposed > limits.MaxRequests() {
        return Some(RequestLimit);
      }
      if currentMinuteRequests + proposed > limits.requestsPerMinute {
        return Some(RateLimit);
      }
      if consecutiveFailures >= limits.maxFailures {
        return Some(ConsecutiveFailureLimit);
      }
      r := None;
    }

    method Record(count: nat, failed: bool)
      modifies this
      ensures View() == Charged(old(View()), count, failed)
    {
      iterations := iterations + 1;
      requests := requests + count;
      currentMinuteRequests := currentMinuteRequests + count;
      consecutiveFailures := if failed then consecutiveFailures + 1 else 0;
    }
  }
}
