/**
 A review decision is bound to the digest of the checkpoint file it was made for
 (src/aotp/campaign_control.py), and revisions rise, so it is accepted once.
 */
module Replay {
  import opened Basics
  import opened Objectives
  import opened EventLog
  import opened CampaignState
  import opened CampaignSpec
  import opened Disk
  import opened CrashSafety

  // ----- Revisions rise -----

  ghost predicate SavesAbove(saves: seq<State>, r: int) {
    forall i :: 0 <= i < |saves| ==> saves[i].revision > r
  }

  lemma VisitRevises(cfg: Config, env: Env, s: State, o: Objective, base: real)
    ensures var v := Visit(cfg, env, s, o, base); v.s.revision >= s.revision && SavesAbove(v.saves, s.revision)
  {
    hide Sealed, LastHash, Denial, Remove;
  }

  lemma {:induction false} LoopRevises(cfg: Config, env: Env, s: State, k: nat, steps: nat, base: real)
    ensures var p := Loop(cfg, env, s, k, steps, base); p.s.revision >= s.revision && SavesAbove(p.saves, s.revision)
    decreases |cfg.order| - k
  {
    hide Visit;
    if k < |cfg.order| {
      VisitRevises(cfg, env, s, cfg.order[k], base);
      LoopRevises(cfg, env, s, k + 1, steps, base);
      LoopRevises(cfg, env, Visit(cfg, env, s, cfg.order[k], base).s, k + 1, steps + 1, base);
    }
  }

  lemma RunRevises(cfg: Config, env: Env, s: State)
    ensures SavesAbove(Run(cfg, env, s), s.revision)
  {
    hide Loop, Sealed, LastHash;
    var b := Begun(cfg, env, s);
    LoopRevises(cfg, env, b, 0, 0, b.elapsed);
  }

  ghost predicate WritesAbove(writes: seq<Write>, r: int) {
    forall i :: 0 <= i < |writes| && writes[i].SaveCheckpoint? ==> writes[i].state.revision > r
  }

  lemma {:induction false} SavesToWrites(logged: nat, saves: seq<State>, r: int)
    requires SavesAbove(saves, r)
    ensures WritesAbove(Writes(logged, saves), r)
    decreases saves
  {
    if saves != [] {
      SavesToWrites(|saves[0].events|, saves[1..], r);
    }
  }

  lemma PerformRevises(cfg: Config, w: Workspace, c: Call)
    requires w.checkpoint.Some? && Perform(cfg, w, c).Ok?
    ensures WritesAbove(Perform(cfg, w, c).value, w.checkpoint.value.revision)
  {
    hide Run, Writes, WritesAbove, ApplyReview, OperatorStopped, LogMatches;
    var s := w.checkpoint.value;
    match c
    case FreshRun(env) =>
    case ResumeRun(env) =>
      RunRevises(cfg, env, s);
      SavesToWrites(|s.events|, Run(cfg, env, s), s.revision);
    case Decide(r) =>
      ReviewRevises(cfg, s, r);
      SavesToWrites(|s.events|, [ApplyReview(cfg, s, r)], s.revision);
    case Halt(stamp) =>
      HaltRevises(cfg, s, stamp);
      SavesToWrites(|s.events|, [OperatorStopped(cfg, s, stamp)], s.revision);
  }

  lemma ReviewRevises(cfg: Config, s: State, r: Review)
    requires s.review.Some?
    ensures ApplyReview(cfg, s, r).revision == s.revision + 1
  {
  }

  lemma HaltRevises(cfg: Config, s: State, stamp: string)
    ensures OperatorStopped(cfg, s, stamp).revision == s.revision + 1
  {
  }

  // ----- Once acted on, a checkpoint is never decided again -----

  /** The checkpoint has moved past this revision, or the log has outgrown it there. */
  ghost predicate Past(w: Workspace, revision: int) {
    && w.checkpoint.Some? && w.checkpoint.value.revision >= revision
    && (w.checkpoint.value.revision > revision || |w.log| > |w.checkpoint.value.events|)
  }

  lemma {:induction false} WritesPast(w: Workspace, writes: seq<Write>, revision: int)
    requires Past(w, revision) && WritesAbove(writes, revision)
    ensures Past(ApplyAll(w, writes), revision)
    decreases writes
  {
    if writes != [] {
      WritesPast(Apply(w, writes[0]), writes[1..], revision);
    }
  }

  /** Whatever is called, refused, cut off or carried out, it stays so. */
  lemma StepPast(cfg: Config, w: Workspace, a: Action, revision: int)
    requires Past(w, revision)
    ensures Past(Step(cfg, w, a), revision)
  {
    hide Perform;
    var p := Perform(cfg, w, a.call);
    if p.Ok? {
      PerformRevises(cfg, w, a.call);
      WritesPast(w, if a.upTo < |p.value| then p.value[..a.upTo] else p.value, revision);
    }
  }

  lemma {:induction false} HistoryPast(cfg: Config, before: seq<Action>, later: seq<Action>, revision: int)
    requires Past(History(cfg, before), revision)
    ensures Past(History(cfg, before + later), revision)
    decreases later
  {
    hide Past, Step;
    if later == [] {
      assert before + later == before;
    } else {
      var all, init := before + later, later[..|later| - 1];
      HistoryPast(cfg, before, init, revision);
      assert all[..|all| - 1] == before + init;
      StepPast(cfg, History(cfg, before + init), later[|later| - 1], revision);
    }
  }

  /** An accepted decision of which anything was written. */
  lemma DecidedPast(cfg: Config, w: Workspace, r: Review, upTo: nat)
    requires Perform(cfg, w, Decide(r)).Ok? && upTo > 0
    ensures Past(Step(cfg, w, Action(Decide(r), upTo)), w.checkpoint.value.revision)
  {
    hide Writes, ApplyReview, StateMatchesLog;
    var s := w.checkpoint.value;
    CountMatches(cfg, s, w.log);
    PerformRevises(cfg, w, Decide(r));
    var writes := Perform(cfg, w, Decide(r)).value;
    SomethingWritten(cfg, s, r);
    var cut := if upTo < |writes| then writes[..upTo] else writes;
    WritesPast(Apply(w, cut[0]), cut[1..], s.revision);
  }

  lemma SomethingWritten(cfg: Config, s: State, r: Review)
    requires s.review.Some?
    ensures Writes(|s.events|, [ApplyReview(cfg, s, r)]) != []
  {
  }

  /** Two checkpoints of one digest are one checkpoint. */
  ghost predicate NoFileCollision(cfg: Config, a: State, b: State) {
    cfg.identity.fileDigest(a) == cfg.identity.fileDigest(b) ==> a == b
  }

  /** Where the checkpoint is past a revision, a decision bound to that revision is refused. */
  lemma PastRefuses(cfg: Config, w: Workspace, decided: State, r: Review)
    requires Past(w, decided.revision) && NoFileCollision(cfg, w.checkpoint.value, decided)
    requires r.stateHash == cfg.identity.fileDigest(decided)
    ensures Perform(cfg, w, Decide(r)).Err?
  {
    hide StateMatchesLog, Writes, ApplyReview;
    CountMatches(cfg, w.checkpoint.value, w.log);
  }

  /**
   A decision accepted once, and acted on at all, is never accepted again, nor is any other made
   for the same checkpoint: whatever calls and crashes follow.
   */
  lemma {:induction false} DecisionAcceptedOnce(
    cfg: Config, before: seq<Action>, r: Review, upTo: nat, later: seq<Action>, again: Review)
    requires Perform(cfg, History(cfg, before), Decide(r)).Ok? && upTo > 0 && again.stateHash == r.stateHash
    requires var w := History(cfg, before + [Action(Decide(r), upTo)] + later);
      w.checkpoint.Some? ==> NoFileCollision(cfg, w.checkpoint.value, History(cfg, before).checkpoint.value)
    ensures Perform(cfg, History(cfg, before + [Action(Decide(r), upTo)] + later), Decide(again)).Err?
  {
    hide Step, Past, NoFileCollision, LogMatches, Writes, ApplyReview;
    var w, a := History(cfg, before), Action(Decide(r), upTo);
    var decided := before + [a];
    assert decided[..|decided| - 1] == before;
    DecidedPast(cfg, w, r, upTo);
    HistoryPast(cfg, decided, later, w.checkpoint.value.revision);
    PastSome(History(cfg, decided + later), w.checkpoint.value.revision);
    PastRefuses(cfg, History(cfg, decided + later), w.checkpoint.value, again);
  }

  lemma PastSome(w: Workspace, revision: int)
    requires Past(w, revision)
    ensures w.checkpoint.Some?
  {
  }
}
