/**
 The workspace on disk, and everything that can happen to it.

 An entry point is a sequence of writes: log appends and checkpoint saves.  A crash keeps a
 prefix of them; the next call reloads the checkpoint.  Histories are arbitrary sequences of
 calls, each cut anywhere.
 */
module Disk {
  import opened Basics
  import opened Objectives
  import opened EventLog
  import opened CampaignState
  import opened CampaignSpec

  datatype Write = AppendEvent(event: Event) | SaveCheckpoint(state: State)

  datatype Workspace = Workspace(log: seq<Event>, checkpoint: Option<State>)

  function Apply(w: Workspace, write: Write): Workspace {
    match write
    case AppendEvent(e) => w.(log := w.log + [e])
    case SaveCheckpoint(s) => w.(checkpoint := Some(s))
  }

  function ApplyAll(w: Workspace, writes: seq<Write>): Workspace
    decreases writes
  {
    if writes == [] then w else ApplyAll(Apply(w, writes[0]), writes[1..])
  }

  function Appends(events: seq<Event>): (writes: seq<Write>)
    ensures |writes| == |events| && forall i :: 0 <= i < |writes| ==> writes[i] == AppendEvent(events[i])
  {
    seq(|events|, i requires 0 <= i < |events| => AppendEvent(events[i]))
  }

  /** The writes behind a list of checkpoints, when `logged` events are already in the log. */
  function Writes(logged: nat, saves: seq<State>): seq<Write>
    decreases saves
  {
    if saves == [] then []
    else
      var unlogged := if logged <= |saves[0].events| then saves[0].events[logged..] else [];
      Appends(unlogged) + [SaveCheckpoint(saves[0])] + Writes(|saves[0].events|, saves[1..])
  }

  // ----- Calls -----

  datatype Call =
    | FreshRun(env: Env)      // run_campaign without a state
    | ResumeRun(env: Env)     // run_campaign on the loaded checkpoint
    | Decide(review: Review)  // apply_review_decision
    | Halt(stamp: string)     // request_operator_stop

  ghost predicate ValidCall(c: Call) {
    (c.FreshRun? || c.ResumeRun?) ==> ValidEnv(c.env) && ClockForward(c.env)
  }

  ghost predicate LogMatches(cfg: Config, s: State, log: seq<Event>) {
    StateMatchesLog(cfg.hash, Lines(log), s.lastHash, |s.events|)
  }

  /** The checks of each entry point in source order, then what it writes. */
  ghost function Perform(cfg: Config, w: Workspace, c: Call): Result<seq<Write>, Refusal> {
    match c
    case FreshRun(env) =>
      if w.checkpoint.Some? then Err(CheckpointExists)
      else if w.log != [] then Err(LogExists)
      else Ok(Writes(0, Run(cfg, env, InitialState(cfg))))
    case ResumeRun(env) =>
      if w.checkpoint.None? then Err(NoCheckpoint)
      else
        var s := w.checkpoint.value;
        var known := Elements(Ids(cfg.objectives));
        if !(Elements(s.completed + s.pending + s.skipped + s.stopped) <= known) then Err(UnknownObjectives)
        else if !Executable(s.status) then Err(StatusRefused)
        else if s.events != [] && !LogMatches(cfg, s, w.log) then Err(LogMismatch)
        else Ok(Writes(|s.events|, Run(cfg, env, s)))
    case Decide(r) =>
      if w.checkpoint.None? then Err(NoCheckpoint)
      else
        var s := w.checkpoint.value;
        if s.status != Paused || s.review.None? then Err(NotPaused)
        else if !LogMatches(cfg, s, w.log) then Err(LogMismatch)
        else if r.decidedAt > r.handedInAt then Err(FutureDecision)
        else if r.stateHash != cfg.identity.fileDigest(s) then Err(StateHashWrong)
        else if r.campaign != cfg.identity.campaign then Err(CampaignWrong)
        else if s.current != Some(r.objective) then Err(ObjectiveWrong)
        else if r.operator != cfg.identity.operator then Err(OperatorWrong)
        else Ok(Writes(|s.events|, [ApplyReview(cfg, s, r)]))
    case Halt(stamp) =>
      if w.checkpoint.None? then Err(NoCheckpoint)
      else
        var s := w.checkpoint.value;
        if s.status in {Completed, StoppedByOperator} then Err(NotStoppable)
        else Ok(Writes(|s.events|, [OperatorStopped(cfg, s, stamp)]))
  }

  /** A call cut off after at most `upTo` writes. */
  datatype Action = Action(call: Call, upTo: nat)

  ghost function Step(cfg: Config, w: Workspace, a: Action): Workspace {
    match Perform(cfg, w, a.call)
    case Err(_) => w
    case Ok(writes) => ApplyAll(w, if a.upTo < |writes| then writes[..a.upTo] else writes)
  }

  ghost function History(cfg: Config, actions: seq<Action>): Workspace
    decreases actions
  {
    if actions == [] then Workspace([], None)
    else Step(cfg, History(cfg, actions[..|actions| - 1]), actions[|actions| - 1])
  }
}
