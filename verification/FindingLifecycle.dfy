/**
 Findings from creation to payment (src/aotp/finding_candidate.py, src/aotp/finding_lifecycle.py).
 Which of them can ever be confirmed follows from the edges and the validation together.
 */
module FindingLifecycle {
  import opened Basics

  datatype State =
    | Observed | Candidate | NeedsReproduction | NeedsHumanReview | Confirmed | DuplicateRisk | OutOfScope
    | NotSecurityImpacting | ReadyForReport | SubmittedManually | Accepted | Rejected | Paid

  function Successors(s: State): set<State> {
    match s
    case Observed => {Candidate, OutOfScope, NotSecurityImpacting}
    case Candidate => {NeedsReproduction, NeedsHumanReview, DuplicateRisk}
    case NeedsReproduction => {Candidate, NeedsHumanReview, NotSecurityImpacting}
    case NeedsHumanReview => {Confirmed, DuplicateRisk, OutOfScope, NotSecurityImpacting}
    case Confirmed => {ReadyForReport}
    case ReadyForReport => {SubmittedManually}
    case SubmittedManually => {Accepted, Rejected, DuplicateRisk}
    case Accepted => {Paid}
    case _ => {}
  }

  datatype Severity = Unrated | Informational | Low | Medium | High | Critical

  datatype Strength = Weak | MediumStrength | Strong

  datatype Assessment = NotApplicable | NotAssessed | ObservationOnly | Verified

  datatype ReviewStatus = NotRequired | CandidateReviewed | ExcludedPendingReview

  /** An entry of lifecycle_history; None is the "none" a created candidate comes from. */
  datatype Change = Change(from: Option<State>, to: State, reviewer: string, at: string)

  datatype Finding = Finding(
    state: State, severity: Severity, strength: Strength, humanValidated: bool,
    reviewRequired: bool, reviewStatus: ReviewStatus, reviewer: string, reviewReference: string, reviewHash: string,
    componentOnly: bool, reachability: Assessment, exploitability: Assessment,
    cryptoOnly: bool, cryptoStatus: Assessment,
    evidenceReference: string, manifestHash: string, verificationReference: string, verificationHash: string,
    fingerprint: string, updatedAt: string, history: seq<Change>, digest: Option<string>)

  /** The scanner, the review decision on file, and the digest, as they answer for a finding. */
  datatype Checks = Checks(redacted: Finding -> bool, decisionHolds: Finding -> bool, digestOf: Finding -> string)

  predicate ReportInclusionAllowed(c: Checks, f: Finding) {
    !f.reviewRequired || (
      && f.state == ReadyForReport && f.humanValidated && f.reviewStatus == CandidateReviewed
      && f.reviewer != "" && f.reviewReference != "" && f.reviewHash != "" && c.decisionHolds(f))
  }

  /** The fields are bound to evidence and its verification. */
  predicate Bound(f: Finding) {
    f.manifestHash != "" && f.verificationReference != "" && f.verificationHash != "" && f.fingerprint != ""
  }

  predicate Unverified(f: Finding) {
    || (f.componentOnly && !(f.reachability == Verified && f.exploitability == Verified))
    || (f.cryptoOnly && f.cryptoStatus != Verified)
  }

  /** FindingCandidate.validate. */
  predicate Valid(c: Checks, f: Finding) {
    && f.evidenceReference != ""
    && (f.reviewRequired ==>
          f.reviewStatus == CandidateReviewed && f.reviewer != "" && f.reviewReference != "" && f.reviewHash != "")
    && (f.state != Observed ==> Bound(f))
    && (f.state in {Confirmed, ReadyForReport} ==> f.humanValidated && !Unverified(f))
    && (f.state == ReadyForReport ==>
          f.severity != Unrated && f.strength != Weak && ReportInclusionAllowed(c, f))
    && c.redacted(f)
    && (f.digest.Some? ==> f.digest.value == c.digestOf(f))
  }

  // ----- Creation -----

  datatype Manifest = Manifest(
    hash: string, sbomReview: bool, cryptoControls: bool, weakIndicators: bool, panel: bool)

  datatype Verification = Verification(manifestHash: string, failed: bool, reference: string, hash: string)

  /** A review decision: the manifest it is bound to, who decided, where it is kept. */
  datatype Decision = Decision(manifestHash: string, reviewer: string, reference: string, hash: string)

  datatype CreateError = WrongManifest | NotAFailure | ReviewMissing | InvalidFinding

  function NewFinding(
    evidence: string, m: Manifest, v: Verification, d: Option<Decision>, severity: Severity, strength: Strength,
    fingerprint: string, now: string): Finding
  {
    var reviewer := if m.panel && d.Some? then d.value.reviewer else "";
    var crypto := m.cryptoControls && m.weakIndicators;
    Finding(
      Candidate, severity, strength, false,
      m.panel, if m.panel then CandidateReviewed else NotRequired, reviewer,
      if d.Some? then d.value.reference else "", if d.Some? then d.value.hash else "",
      m.sbomReview, if m.sbomReview then NotAssessed else NotApplicable,
      if m.sbomReview then NotAssessed else NotApplicable,
      crypto, if crypto then ObservationOnly else NotApplicable,
      evidence, m.hash, v.reference, v.hash, fingerprint, now,
      [Change(None, Candidate, if reviewer != "" then reviewer else "system", now)], None)
  }

  function CreateCandidate(
    c: Checks, evidence: string, m: Manifest, v: Verification, d: Option<Decision>, severity: Severity,
    strength: Strength, fingerprint: string, now: string): Result<Finding, CreateError>
  {
    if v.manifestHash != m.hash then Err(WrongManifest)
    else if !v.failed then Err(NotAFailure)
    else if m.panel && (d.None? || d.value.manifestHash != m.hash) then Err(ReviewMissing)
    else
      var f := NewFinding(evidence, m, v, d, severity, strength, fingerprint, now);
      if Valid(c, f) then Ok(f) else Err(InvalidFinding)
  }

  // ----- Transitions -----

  datatype Move = Move(to: State, humanValidated: bool, reviewer: string, at: string)

  /** The assignments of a transition. */
  function Moved(f: Finding, m: Move): Finding {
    f.(state := m.to, humanValidated := f.humanValidated || m.humanValidated, updatedAt := m.at,
       history := f.history + [Change(Some(f.state), m.to, m.reviewer, m.at)], digest := None)
  }

  datatype TransitionError = EdgeNotAllowed | ValidationFailed

  /** A transition whose raise discards the finding. */
  function Transition(c: Checks, f: Finding, m: Move): Result<Finding, TransitionError> {
    if m.to !in Successors(f.state) then Err(EdgeNotAllowed)
    else if !Valid(c, Moved(f, m)) then Err(ValidationFailed)
    else Ok(Moved(f, m))
  }

  class FindingCandidate {
    var state: State
    var severity: Severity
    var strength: Strength
    var humanValidated: bool
    const reviewRequired: bool
    const reviewStatus: ReviewStatus
    const reviewer: string
    const reviewReference: string
    const reviewHash: string
    const componentOnly: bool
    var reachability: Assessment
    var exploitability: Assessment
    const cryptoOnly: bool
    var cryptoStatus: Assessment
    const evidenceReference: string
    const manifestHash: string
    const verificationReference: string
    const verificationHash: string
    const fingerprint: string
    var updatedAt: string
    var history: seq<Change>
    var digest: Option<string>

    constructor (f: Finding)
      ensures View() == f
    {
      state, severity, strength, humanValidated := f.state, f.severity, f.strength, f.humanValidated;
      reviewRequired, reviewStatus, reviewer := f.reviewRequired, f.reviewStatus, f.reviewer;
      reviewReference, reviewHash := f.reviewReference, f.reviewHash;
      componentOnly, reachability, exploitability := f.componentOnly, f.reachability, f.exploitability;
      cryptoOnly, cryptoStatus := f.cryptoOnly, f.cryptoStatus;
      evidenceReference, manifestHash := f.evidenceReference, f.manifestHash;
      verificationReference, verificationHash := f.verificationReference, f.verificationHash;
      fingerprint, updatedAt, history, digest := f.fingerprint, f.updatedAt, f.history, f.digest;
    }

    function View(): Finding
      reads this
    {
      Finding(state, severity, strength, humanValidated, reviewRequired, reviewStatus, reviewer, reviewReference,
              reviewHash, componentOnly, reachability, exploitability, cryptoOnly, cryptoStatus, evidenceReference,
              manifestHash, verificationReference, verificationHash, fingerprint, updatedAt, history, digest)
    }

    /** The object is changed before it is validated: a validation failure leaves the change in place. */
    method TransitionTo(c: Checks, m: Move) returns (e: Option<TransitionError>)
      modifies this
      ensures e.None? <==> Transition(c, old(View()), m).Ok?
      ensures e.Some? ==> e.value == Transition(c, old(View()), m).error
      ensures View() == if e == Some(EdgeNotAllowed) then old(View()) else Moved(old(View()), m)
    {
      hide Valid;
      if m.to !in Successors(state) {
        return Some(EdgeNotAllowed);
      }
      var from := state;
      state := m.to;
      humanValidated := humanValidated || m.humanValidated;
      updatedAt := m.at;
      history := history + [Change(Some(from), m.to, m.reviewer, m.at)];
      digest := None;
      e := if Valid(c, View()) then None else Some(ValidationFailed);
    }
  }

  // ----- Runs -----

  /** Successful transitions one after the other; None once one raises. */
  function Replay(c: Checks, f: Finding, moves: seq<Move>): Option<Finding> {
    if moves == [] then Some(f)
    else
      var before := Replay(c, f, moves[..|moves| - 1]);
      if before.None? then None
      else
        var r := Transition(c, before.value, moves[|moves| - 1]);
        if r.Ok? then Some(r.value) else None
  }

  predicate EdgeAt(history: seq<Change>, i: nat)
    requires 0 < i < |history|
  {
    history[i].from == Some(history[i - 1].to) && history[i].to in Successors(history[i - 1].to)
  }

  /** A connected path of allowed edges from creation to the current state. */
  ghost predicate ConnectedPath(f: Finding) {
    && f.history != [] && f.history[0].from == None && f.history[0].to == Candidate
    && (forall i :: 0 < i < |f.history| ==> EdgeAt(f.history, i))
    && f.history[|f.history| - 1].to == f.state
  }

  predicate Confirms(e: Change) {
    e.from == Some(NeedsHumanReview) && e.to == Confirmed
  }

  ghost predicate PassedReview(history: seq<Change>) {
    exists i :: 0 <= i < |history| && Confirms(history[i])
  }

  /** The states only a confirmed finding can be in. */
  predicate BeyondConfirmation(s: State) {
    s in {Confirmed, ReadyForReport, SubmittedManually, Accepted, Rejected, Paid}
  }

  /** The states only a report-ready finding can be in. */
  predicate Reported(s: State) {
    s in {ReadyForReport, SubmittedManually, Accepted, Rejected, Paid}
  }

  /** What every finding satisfies that was created and moved without a raise. */
  ghost predicate Sound(c: Checks, f: Finding) {
    && ConnectedPath(f) && c.redacted(f) && f.digest.None?
    && f.evidenceReference != "" && f.manifestHash != "" && f.fingerprint != ""
    && f.verificationReference != "" && f.verificationHash != ""
    && (f.reviewRequired ==>
          f.reviewStatus == CandidateReviewed && f.reviewer != "" && f.reviewReference != "" && f.reviewHash != "")
    && (BeyondConfirmation(f.state) ==>
          && f.humanValidated && PassedReview(f.history)
          && (f.componentOnly ==> f.reachability == Verified && f.exploitability == Verified)
          && (f.cryptoOnly ==> f.cryptoStatus == Verified))
    && (Reported(f.state) ==> f.severity != Unrated && f.strength != Weak)
    && (f.state == ReadyForReport && f.reviewRequired ==> c.decisionHolds(f))
  }

  /** Transitions leave what a finding rests on alone. */
  predicate SameBasis(f: Finding, g: Finding) {
    && f.severity == g.severity && f.strength == g.strength
    && f.componentOnly == g.componentOnly && f.reachability == g.reachability && f.exploitability == g.exploitability
    && f.cryptoOnly == g.cryptoOnly && f.cryptoStatus == g.cryptoStatus
    && f.manifestHash == g.manifestHash && f.verificationHash == g.verificationHash && f.fingerprint == g.fingerprint
    && (f.humanValidated ==> g.humanValidated) && f.history <= g.history
  }

  lemma PathExtends(f: Finding, m: Move)
    requires ConnectedPath(f) && m.to in Successors(f.state)
    ensures ConnectedPath(Moved(f, m))
    ensures PassedReview(f.history) || (f.state == NeedsHumanReview && m.to == Confirmed) ==>
      PassedReview(Moved(f, m).history)
  {
    var g := Moved(f, m);
    forall i | 0 < i < |g.history| ensures EdgeAt(g.history, i) {
      if i < |f.history| {
        assert EdgeAt(f.history, i);
      }
    }
    if PassedReview(f.history) {
      var i :| 0 <= i < |f.history| && Confirms(f.history[i]);
      assert Confirms(g.history[i]);
    } else if f.state == NeedsHumanReview && m.to == Confirmed {
      assert Confirms(g.history[|f.history|]);
    }
  }

  lemma TransitionKeeps(c: Checks, f: Finding, m: Move)
    requires Sound(c, f) && Transition(c, f, m).Ok?
    ensures Sound(c, Transition(c, f, m).value) && SameBasis(f, Transition(c, f, m).value)
  {
    hide ConnectedPath, PassedReview;
    PathExtends(f, m);
  }

  lemma UnverifiedKept(f: Finding, m: Move)
    ensures Unverified(Moved(f, m)) <==> Unverified(f)
  {
  }

  lemma CreatedSound(
    c: Checks, evidence: string, m: Manifest, v: Verification, d: Option<Decision>, severity: Severity,
    strength: Strength, fingerprint: string, now: string)
    requires CreateCandidate(c, evidence, m, v, d, severity, strength, fingerprint, now).Ok?
    ensures Sound(c, CreateCandidate(c, evidence, m, v, d, severity, strength, fingerprint, now).value)
  {
  }

  lemma {:induction false} ReplayKeeps(c: Checks, f: Finding, moves: seq<Move>)
    requires Sound(c, f) && Replay(c, f, moves).Some?
    ensures Sound(c, Replay(c, f, moves).value) && SameBasis(f, Replay(c, f, moves).value)
  {
    hide Sound, Transition;
    if moves != [] {
      ReplayKeeps(c, f, moves[..|moves| - 1]);
      TransitionKeeps(c, Replay(c, f, moves[..|moves| - 1]).value, moves[|moves| - 1]);
    }
  }

  /**
   After any successful transitions of a created candidate: its history is a connected path of
   allowed edges that ends in its state, and if it was ever confirmed it is human-validated, went
   from human review to confirmed, and rests on verified evidence.
   */
  lemma {:induction false} FindingRuns(
    c: Checks, evidence: string, m: Manifest, v: Verification, d: Option<Decision>, severity: Severity,
    strength: Strength, fingerprint: string, now: string, moves: seq<Move>)
    requires CreateCandidate(c, evidence, m, v, d, severity, strength, fingerprint, now).Ok?
    requires Replay(c, CreateCandidate(c, evidence, m, v, d, severity, strength, fingerprint, now).value, moves).Some?
    ensures Sound(c, Replay(c, CreateCandidate(c, evidence, m, v, d, severity, strength, fingerprint, now).value,
                            moves).value)
  {
    hide Sound, Replay;
    CreatedSound(c, evidence, m, v, d, severity, strength, fingerprint, now);
    ReplayKeeps(c, CreateCandidate(c, evidence, m, v, d, severity, strength, fingerprint, now).value, moves);
  }

  /**
   A candidate created from SBOM presence or a cryptographic indicator starts unverified, and no
   transitions take it to confirmed or beyond.
   */
  lemma {:induction false} IndicatorsNeverConfirmed(
    c: Checks, evidence: string, m: Manifest, v: Verification, d: Option<Decision>, severity: Severity,
    strength: Strength, fingerprint: string, now: string, moves: seq<Move>)
    requires m.sbomReview || (m.cryptoControls && m.weakIndicators)
    requires CreateCandidate(c, evidence, m, v, d, severity, strength, fingerprint, now).Ok?
    requires Replay(c, CreateCandidate(c, evidence, m, v, d, severity, strength, fingerprint, now).value, moves).Some?
    ensures !BeyondConfirmation(
              Replay(c, CreateCandidate(c, evidence, m, v, d, severity, strength, fingerprint, now).value,
                     moves).value.state)
  {
    hide ConnectedPath, PassedReview, Replay, Valid;
    CreatedSound(c, evidence, m, v, d, severity, strength, fingerprint, now);
    ReplayKeeps(c, CreateCandidate(c, evidence, m, v, d, severity, strength, fingerprint, now).value, moves);
  }

  /** Confirming succeeds from human review alone, and then exactly with a human and verified evidence. */
  lemma ConfirmedExactly(c: Checks, f: Finding, m: Move)
    requires Valid(c, f) && m.to == Confirmed && c.redacted(Moved(f, m))
    ensures Transition(c, f, m).Ok? <==>
      f.state == NeedsHumanReview && (f.humanValidated || m.humanValidated) && !Unverified(f)
  {
    hide ReportInclusionAllowed;
    UnverifiedKept(f, m);
  }

  /** Used after its raise, the object would be a confirmed finding that fails its own validation. */
  lemma RaiseLeavesInvalidObject(c: Checks, f: Finding, m: Move)
    requires f.state == NeedsHumanReview && !f.humanValidated && m.to == Confirmed && !m.humanValidated
    ensures Transition(c, f, m) == Err(ValidationFailed)
    ensures Moved(f, m).state == Confirmed && !Valid(c, Moved(f, m))
  {
  }

  // ----- Creation and moves, from plain conditions -----

  /** A candidate is created exactly from a failed verification of this evidence, reviewed if it is a panel's. */
  lemma CreatedExactly(
    c: Checks, evidence: string, m: Manifest, v: Verification, d: Option<Decision>, severity: Severity,
    strength: Strength, fingerprint: string, now: string)
    ensures var r := CreateCandidate(c, evidence, m, v, d, severity, strength, fingerprint, now);
      && (r.Ok? <==>
            && v.manifestHash == m.hash && v.failed
            && (m.panel ==>
                  && d.Some? && d.value.manifestHash == m.hash
                  && d.value.reviewer != "" && d.value.reference != "" && d.value.hash != "")
            && evidence != "" && m.hash != "" && v.reference != "" && v.hash != "" && fingerprint != ""
            && c.redacted(NewFinding(evidence, m, v, d, severity, strength, fingerprint, now)))
      && (r.Ok? ==>
            var f, who := r.value, if m.panel then d.value.reviewer else "system";
            && f.state == Candidate && !f.humanValidated && f.severity == severity && f.strength == strength
            && f.reviewRequired == m.panel && (m.panel ==> f.reviewer == who)
            && f.componentOnly == m.sbomReview && f.cryptoOnly == (m.cryptoControls && m.weakIndicators)
            && (f.componentOnly ==> f.reachability == f.exploitability == NotAssessed)
            && (f.cryptoOnly ==> f.cryptoStatus == ObservationOnly)
            && f.history == [Change(None, Candidate, who, now)])
  {
  }

  /** A valid finding moves exactly along an allowed edge whose target's own conditions it meets. */
  lemma MovesExactly(c: Checks, f: Finding, m: Move)
    requires Valid(c, f)
    ensures var g, human := Moved(f, m), f.humanValidated || m.humanValidated;
      Transition(c, f, m).Ok? <==>
        && m.to in Successors(f.state) && c.redacted(g)
        && f.manifestHash != "" && f.verificationReference != "" && f.verificationHash != "" && f.fingerprint != ""
        && (m.to in {Confirmed, ReadyForReport} ==>
              && human
              && (f.componentOnly ==> f.reachability == Verified && f.exploitability == Verified)
              && (f.cryptoOnly ==> f.cryptoStatus == Verified))
        && (m.to == ReadyForReport ==>
              f.severity != Unrated && f.strength != Weak && (f.reviewRequired ==> c.decisionHolds(g)))
  {
  }

  // ----- Which states can be reached -----

  /** The state from which each state is first reached, beyond the candidate a finding starts as. */
  function Before(s: State): State
    requires s !in {Observed, Candidate}
  {
    match s
    case Confirmed => NeedsHumanReview
    case ReadyForReport => Confirmed
    case SubmittedManually => ReadyForReport
    case Accepted => SubmittedManually
    case Rejected => SubmittedManually
    case Paid => Accepted
    case OutOfScope => NeedsHumanReview
    case NotSecurityImpacting => NeedsReproduction
    case _ => Candidate
  }

  function Distance(s: State): nat {
    match s
    case Observed => 0
    case Candidate => 0
    case NeedsReproduction => 1
    case NeedsHumanReview => 1
    case DuplicateRisk => 1
    case NotSecurityImpacting => 2
    case OutOfScope => 2
    case Confirmed => 2
    case ReadyForReport => 3
    case SubmittedManually => 4
    case Accepted => 5
    case Rejected => 5
    case Paid => 6
  }

  /** Moves by a human to this state and all before it. */
  function WayTo(s: State): (moves: seq<Move>)
    requires s != Observed
    decreases Distance(s)
  {
    if s == Candidate then [] else WayTo(Before(s)) + [Move(s, true, "reviewer", "now")]
  }

  /** A valid, rated finding on evidence of its own, with no review to wait for. */
  predicate Ordinary(c: Checks, f: Finding) {
    && Valid(c, f) && Bound(f) && f.severity != Unrated && f.strength != Weak
    && !f.componentOnly && !f.cryptoOnly && !f.reviewRequired
  }

  lemma OrdinaryMoves(c: Checks, f: Finding, m: Move)
    requires Ordinary(c, f) && m.to in Successors(f.state) && m.humanValidated && c.redacted(Moved(f, m))
    ensures Transition(c, f, m) == Ok(Moved(f, m)) && Ordinary(c, Moved(f, m)) && Moved(f, m).state == m.to
  {
    hide Successors;
    MovesExactly(c, f, m);
  }

  lemma BeforeLeads(s: State)
    requires s !in {Observed, Candidate}
    ensures s in Successors(Before(s)) && Before(s) != Observed && Distance(Before(s)) < Distance(s)
  {
  }

  lemma {:induction false} WayWorks(c: Checks, f: Finding, s: State)
    requires s != Observed && Ordinary(c, f) && f.state == Candidate && forall g :: c.redacted(g)
    ensures var r := Replay(c, f, WayTo(s)); r.Some? && r.value.state == s && Ordinary(c, r.value)
    decreases Distance(s)
  {
    hide Ordinary, Moved, Successors, Before, Transition;
    if s != Candidate {
      BeforeLeads(s);
      WayWorks(c, f, Before(s));
      assert WayTo(s)[..|WayTo(s)| - 1] == WayTo(Before(s));
      OrdinaryMoves(c, Replay(c, f, WayTo(Before(s))).value, Move(s, true, "reviewer", "now"));
    }
  }

  /** From creation every state but `observed` is reached by some moves. */
  lemma {:induction false} StatesReached(s: State)
    returns (c: Checks, m: Manifest, v: Verification, moves: seq<Move>)
    ensures CreateCandidate(c, "e", m, v, None, High, Strong, "f", "now").Ok?
    ensures s != Observed ==>
      var r := Replay(c, CreateCandidate(c, "e", m, v, None, High, Strong, "f", "now").value, moves);
      r.Some? && r.value.state == s
  {
    c := Checks(f => true, f => false, f => "");
    m, v := Manifest("h", false, false, false, false), Verification("h", true, "r", "v");
    moves := if s == Observed then [] else WayTo(s);
    CreatedExactly(c, "e", m, v, None, High, Strong, "f", "now");
    if s != Observed {
      WayWorks(c, CreateCandidate(c, "e", m, v, None, High, Strong, "f", "now").value, s);
    }
  }

  /** The only way in, for the states on the way to payment and for `observed`. */
  lemma OnlyWayIn(s: State)
    ensures Observed !in Successors(s)
    ensures Paid in Successors(s) <==> s == Accepted
    ensures Accepted in Successors(s) <==> s == SubmittedManually
    ensures SubmittedManually in Successors(s) <==> s == ReadyForReport
    ensures ReadyForReport in Successors(s) <==> s == Confirmed
    ensures Confirmed in Successors(s) <==> s == NeedsHumanReview
  {
  }

  /** The last steps of a path that ends this way. */
  ghost predicate EndsIn(history: seq<Change>, steps: seq<State>) {
    && |history| >= |steps|
    && forall i :: 0 <= i < |steps| ==> history[|history| - |steps| + i].to == steps[i]
  }

  lemma StepBack(f: Finding, i: int)
    requires ConnectedPath(f) && 0 <= i < |f.history|
    requires f.history[i].to in {Confirmed, ReadyForReport, SubmittedManually, Accepted, Paid}
    ensures i > 0 && OnlyFrom(f.history[i - 1].to, f.history[i].to)
  {
    if i > 0 {
      assert EdgeAt(f.history, i);
      OnlyWayIn(f.history[i - 1].to);
    }
  }

  predicate OnlyFrom(before: State, after: State) {
    || (after == Paid && before == Accepted)
    || (after == Accepted && before == SubmittedManually) || (after == SubmittedManually && before == ReadyForReport)
    || (after == ReadyForReport && before == Confirmed) || (after == Confirmed && before == NeedsHumanReview)
  }

  /**
   A paid finding, however it got there, was last in human review, then confirmed, ready for report,
   submitted manually, accepted and paid, in that order.
   */
  lemma PaidWentThrough(c: Checks, f: Finding)
    requires Sound(c, f) && f.state == Paid
    ensures EndsIn(f.history, [NeedsHumanReview, Confirmed, ReadyForReport, SubmittedManually, Accepted, Paid])
  {
    hide EdgeAt;
    var n := |f.history|;
    StepBack(f, n - 1);
    StepBack(f, n - 2);
    StepBack(f, n - 3);
    StepBack(f, n - 4);
    StepBack(f, n - 5);
  }

  /** No created finding is ever merely observed. */
  lemma NeverObserved(c: Checks, f: Finding)
    requires Sound(c, f)
    ensures f.state != Observed
  {
    if |f.history| > 1 {
      assert EdgeAt(f.history, |f.history| - 1);
      OnlyWayIn(f.history[|f.history| - 2].to);
    }
  }
}
