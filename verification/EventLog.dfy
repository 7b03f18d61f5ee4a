/**
 The hash-chained campaign event log (src/aotp/campaign_events.py).

 An event is a body and the hash recorded for it.  The hash function is a parameter: nothing
 here depends on SHA-256 beyond "these two logs contain no collision".
 */
module EventLog {
  import opened Basics
  import opened Objectives

  type Digest = string

  /** The form of a SHA-256 digest: 64 lowercase hexadecimal digits. */
  predicate DigestForm(d: Digest) {
    |d| == 64 && forall i :: 0 <= i < |d| ==> d[i] in "0123456789abcdef"
  }

  datatype Phase = PreExecution | PostExecution

  /** Why the policy gate refused.  The engine tells only the missing human approval from the rest. */
  datatype Reason = HumanApprovalRequired | OtherReason(text: string)

  datatype StopReason =
    | IterationLimit | RuntimeLimit | RequestLimit | RateLimit | ConsecutiveFailureLimit | OperatorStopReason

  datatype Verdict = Pass | Fail | Inconclusive | ManualReview | PolicyStop

  datatype ReviewChoice = Approved | Denied | StopCampaign

  datatype EventKind =
    | CampaignStarted | CampaignResumed | ObjectiveResult | CampaignPaused
    | CampaignStop | ReviewDecision | OperatorStop | CampaignFinished

  /** The policy_decision field. */
  datatype PolicyNote =
    | NoPolicy | GateDecision(reasons: seq<Reason>) | StoppedBy(why: StopReason) | LockoutPause | FuzzingSafetyStop

  /** The outcome field. */
  datatype Outcome =
    | PlannedOutcome | RunningOutcome | CompletedOutcome | PausedOutcome | ConditionStopOutcome | OperatorStopOutcome
    | VerdictOutcome(verdict: Verdict) | ReviewOutcome(choice: ReviewChoice)

  /** The details field. */
  datatype Details =
    | NoDetails | Phased(phase: Phase) | StopConditions(signals: seq<string>) | StopDetail(why: StopReason)
    | Reviewed(decisionId: string, of: Phase) | IterationCount(count: int)

  /** What the caller of append_campaign_event supplies. */
  datatype Draft = Draft(
    kind: EventKind, iteration: int, objective: Option<Id>, policy: PolicyNote, outcome: Outcome, details: Details)

  /** Every hashed field; `stamp` stands for the random event id and the timestamp. */
  datatype Body = Body(sequence: int, stamp: string, draft: Draft, previous: Option<Digest>)

  datatype Event = Event(body: Body, hash: Option<Digest>)

  type Hasher = Body -> Digest

  function LastHash(events: seq<Event>): Option<Digest> {
    if events == [] then None else events[|events| - 1].hash
  }

  function Sealed(h: Hasher, events: seq<Event>, stamp: string, draft: Draft): Event {
    var body := Body(|events| + 1, stamp, draft, LastHash(events));
    Event(body, Some(h(body)))
  }

  ghost predicate ChainedAt(h: Hasher, events: seq<Event>, i: nat)
    requires i < |events|
  {
    && events[i].body.sequence == i + 1
    && events[i].body.previous == LastHash(events[..i])
    && events[i].hash == Some(h(events[i].body))
  }

  ghost predicate Chained(h: Hasher, events: seq<Event>) {
    forall i :: 0 <= i < |events| ==> ChainedAt(h, events, i)
  }

  lemma SealedKeepsChain(h: Hasher, events: seq<Event>, stamp: string, draft: Draft)
    requires Chained(h, events)
    ensures Chained(h, events + [Sealed(h, events, stamp, draft)])
  {
    var longer := events + [Sealed(h, events, stamp, draft)];
    forall i | 0 <= i < |longer| ensures ChainedAt(h, longer, i) {
      if i < |events| {
        assert ChainedAt(h, events, i);
        assert longer[..i] == events[..i];
      } else {
        assert longer[..i] == events;
      }
    }
  }

  lemma ChainPrefix(h: Hasher, events: seq<Event>, n: nat)
    requires Chained(h, events) && n <= |events|
    ensures Chained(h, events[..n])
  {
    forall i | 0 <= i < n ensures ChainedAt(h, events[..n], i) {
      assert ChainedAt(h, events, i);
      assert events[..n][..i] == events[..i];
    }
  }

  // ----- Verification of a log file -----

  /** A line of the log file: an event, or text that does not decode to one. */
  datatype Line = Entry(event: Event) | Malformed

  datatype LogFailure =
    | LogMissing | LineInvalid(line: nat) | SequenceGap(line: nat) | PreviousMismatch(line: nat)
    | HashMismatch(line: nat) | StateHashMismatch | StateCountMismatch

  function Lines(events: seq<Event>): (lines: seq<Line>)
    ensures |lines| == |events| && forall i :: 0 <= i < |lines| ==> lines[i] == Entry(events[i])
  {
    seq(|events|, i requires 0 <= i < |events| => Entry(events[i]))
  }

  ghost predicate AllEntries(lines: seq<Line>) {
    forall i :: 0 <= i < |lines| ==> lines[i].Entry?
  }

  ghost function Entries(lines: seq<Line>): (events: seq<Event>)
    requires AllEntries(lines)
    ensures |events| == |lines| && forall i :: 0 <= i < |lines| ==> lines[i] == Entry(events[i])
  {
    seq(|lines|, i requires 0 <= i < |lines| => lines[i].event)
  }

  /** The lines decode, and the events chain from nothing to the last one. */
  ghost predicate ValidLog(h: Hasher, lines: seq<Line>) {
    AllEntries(lines) && Chained(h, Entries(lines))
  }

  /** How many lines decode, and the hash on the last of them; undecodable lines are passed over. */
  function Decoded(lines: seq<Line>): nat {
    if lines == [] then 0
    else Decoded(lines[..|lines| - 1]) + if lines[|lines| - 1].Entry? then 1 else 0
  }

  function LastDecoded(lines: seq<Line>): Option<Digest> {
    if lines == [] then None
    else if lines[|lines| - 1].Entry? then lines[|lines| - 1].event.hash
    else LastDecoded(lines[..|lines| - 1])
  }

  /** One of the first n lines has this fault. */
  ghost predicate Fault(h: Hasher, lines: seq<Line>, n: nat, f: LogFailure)
    requires n <= |lines|
  {
    match f
    case LineInvalid(k) => 0 < k <= n && lines[k - 1] == Malformed
    case SequenceGap(k) =>
      0 < k <= n && lines[k - 1].Entry? && lines[k - 1].event.body.sequence != Decoded(lines[..k - 1]) + 1
    case PreviousMismatch(k) =>
      0 < k <= n && lines[k - 1].Entry? && lines[k - 1].event.body.previous != LastDecoded(lines[..k - 1])
    case HashMismatch(k) =>
      0 < k <= n && lines[k - 1].Entry? && lines[k - 1].event.hash != Some(h(lines[k - 1].event.body))
    case _ => false
  }

  /**
   No failure is reported exactly on a non-empty log that decodes and chains throughout; on any
   other, exactly the faults there are, each with its line.
   */
  method VerifyEventLog(h: Hasher, lines: seq<Line>) returns (failures: seq<LogFailure>)
    ensures failures == [] <==> lines != [] && ValidLog(h, lines)
    ensures forall f :: f in failures <==> Fault(h, lines, |lines|, f) || (f == LogMissing && lines == [])
  {
    if lines == [] {
      return [LogMissing];
    }
    failures := [];
    var previous: Option<Digest> := None;
    var expected := 1;
    for n := 0 to |lines|
      invariant failures == [] <==> ValidLog(h, lines[..n])
      invariant failures == [] ==> expected == n + 1 && previous == LastHash(Entries(lines[..n]))
      invariant expected == Decoded(lines[..n]) + 1 && previous == LastDecoded(lines[..n])
      invariant forall f :: f in failures <==> Fault(h, lines, n, f)
    {
      ghost var before := failures;
      assert lines[..n + 1][..n] == lines[..n];
      FaultStep(h, lines, n);
      if lines[n] == Malformed {
        failures := failures + [LineInvalid(n + 1)];
        assert !lines[..n + 1][n].Entry?;
      } else {
        var event := lines[n].event;
        if event.body.sequence != expected {
          failures := failures + [SequenceGap(n + 1)];
        }
        if event.body.previous != previous {
          failures := failures + [PreviousMismatch(n + 1)];
        }
        if event.hash != Some(h(event.body)) {
          failures := failures + [HashMismatch(n + 1)];
        }
        previous := event.hash;
        expected := expected + 1;
        ValidLogStep(h, lines, n);
      }
    }
    assert lines[..|lines|] == lines;
  }

  lemma FaultStep(h: Hasher, lines: seq<Line>, n: nat)
    requires n < |lines|
    ensures forall f :: Fault(h, lines, n + 1, f) <==> Fault(h, lines, n, f) || FaultOf(h, lines, n, f)
  {
  }

  /** The faults of line n + 1 alone. */
  ghost predicate FaultOf(h: Hasher, lines: seq<Line>, n: nat, f: LogFailure)
    requires n < |lines|
  {
    if lines[n] == Malformed then f == LineInvalid(n + 1)
    else
      || (f == SequenceGap(n + 1) && lines[n].event.body.sequence != Decoded(lines[..n]) + 1)
      || (f == PreviousMismatch(n + 1) && lines[n].event.body.previous != LastDecoded(lines[..n]))
      || (f == HashMismatch(n + 1) && lines[n].event.hash != Some(h(lines[n].event.body)))
  }

  lemma ValidLogStep(h: Hasher, lines: seq<Line>, n: nat)
    requires n < |lines| && lines[n].Entry?
    ensures ValidLog(h, lines[..n + 1]) <==>
      ValidLog(h, lines[..n])
      && lines[n].event.body.sequence == n + 1
      && lines[n].event.body.previous == LastHash(Entries(lines[..n]))
      && lines[n].event.hash == Some(h(lines[n].event.body))
    ensures AllEntries(lines[..n]) ==> LastHash(Entries(lines[..n + 1])) == lines[n].event.hash
  {
    var upto, more := lines[..n], lines[..n + 1];
    assert AllEntries(upto) <==> AllEntries(more) by {
      if AllEntries(more) {
        assert forall i :: 0 <= i < n ==> upto[i] == more[i];
      }
    }
    if AllEntries(upto) {
      var short, long := Entries(upto), Entries(more);
      assert long[..n] == short;
      if Chained(h, long) {
        assert ChainedAt(h, long, n);
        ChainPrefix(h, long, n);
      }
      if Chained(h, short) && ChainedAt(h, long, n) {
        forall i | 0 <= i < |long| ensures ChainedAt(h, long, i) {
          if i < n {
            assert ChainedAt(h, short, i);
            assert long[..i] == short[..i];
          }
        }
      }
    }
  }

  /** The checkpoint's view: the log verifies, ends in the state's hash, and has as many lines. */
  ghost predicate StateMatchesLog(h: Hasher, lines: seq<Line>, last: Option<Digest>, count: nat) {
    && lines != [] && ValidLog(h, lines)
    && LastHash(Entries(lines)) == last && |lines| == count
  }

  method VerifyStateEventLog(h: Hasher, lines: seq<Line>, last: Option<Digest>, count: nat)
    returns (failures: seq<LogFailure>)
    ensures failures == [] <==> StateMatchesLog(h, lines, last, count)
    ensures StateHashMismatch in failures ==> LastDecoded(lines) != last
    ensures StateCountMismatch in failures ==> |lines| != count
  {
    failures := VerifyEventLog(h, lines);
    if failures == [] {
      var final := lines[|lines| - 1];
      if final.event.hash != last {
        failures := failures + [StateHashMismatch];
      }
      if |lines| != count {
        failures := failures + [StateCountMismatch];
      }
    }
  }

  lemma StateMatchesOwnLog(h: Hasher, events: seq<Event>)
    requires Chained(h, events) && events != []
    ensures StateMatchesLog(h, Lines(events), LastHash(events), |events|)
  {
    assert Entries(Lines(events)) == events;
  }

  // ----- What a verified log determines -----

  /** No two different bodies of the two logs share a hash. */
  ghost predicate NoCollision(h: Hasher, a: seq<Event>, b: seq<Event>) {
    forall x, y :: x in a && y in b && h(x.body) == h(y.body) ==> x.body == y.body
  }

  /** Two chained logs ending in one hash are the same log, event by event. */
  lemma {:induction false} HashDeterminesHistory(h: Hasher, a: seq<Event>, b: seq<Event>)
    requires Chained(h, a) && Chained(h, b) && NoCollision(h, a, b)
    requires a != [] && b != [] && LastHash(a) == LastHash(b)
    ensures a == b
  {
    var m, n := |a| - 1, |b| - 1;
    assert ChainedAt(h, a, m) && ChainedAt(h, b, n);
    assert a[m].body == b[n].body;
    assert m == n && a[m] == b[n];
    ChainPrefix(h, a, m);
    ChainPrefix(h, b, n);
    if m > 0 {
      assert NoCollision(h, a[..m], b[..n]);
      HashDeterminesHistory(h, a[..m], b[..n]);
    }
    assert a == a[..m] + [a[m]] && b == b[..n] + [b[n]];
  }

  /** Whatever file verifies against a checkpoint is the file that was written for it. */
  lemma CheckpointDeterminesLog(h: Hasher, written: seq<Event>, found: seq<Line>)
    requires Chained(h, written) && written != []
    requires StateMatchesLog(h, found, LastHash(written), |written|)
    requires NoCollision(h, Entries(found), written)
    ensures found == Lines(written)
  {
    HashDeterminesHistory(h, Entries(found), written);
  }
}
