/**
 * The tracked-body selection rules of Kinect2Manager, as transitions on a value.
 *
 * TrackerState holds the four fields the manager keeps for tracking (`_trackedBodyId`,
 * `_trackedPlayerIndex`, `_lastTimeBodyWasTracked`, `_switchToBodyID`); a Transition pairs the new
 * state with the TrackedUserChanged notifications raised on the way (each carries the new id).
 * The manager's methods are proved to perform exactly these transitions.
 */
module BodyTracker {
  import opened DataConverter

  /** Body id 0 means "no body". */
  const NoTrackedBodyId: ulong := 0

  /** Player index -1 means "not tracked". */
  const NotTrackedIndex: int32 := -1

  /** A tracked body is dropped once no tracked report for it has arrived for this long. */
  const TimeToTimeoutTrackedUser: real := 0.5

  datatype TrackerState = TrackerState(
    trackedBodyId: ulong,
    trackedPlayerIndex: int32,
    lastTimeBodyWasTracked: real,
    switchToBodyId: ulong)

  datatype Transition = Transition(state: TrackerState, notified: seq<ulong>)

  /** The field initialisers: no body, not tracked, time 0, no pending override. */
  const InitialState := TrackerState(NoTrackedBodyId, NotTrackedIndex, 0.0, NoTrackedBodyId)

  predicate HasTrackedBody(s: TrackerState)
  {
    s.trackedBodyId != NoTrackedBodyId
  }

  /** A report completes a pending override: it names the pending id, which is not the tracked one. */
  predicate IsOverrideBody(s: TrackerState, body: BodyData): (r: bool)
    ensures r ==> body.userId != s.trackedBodyId && body.userId == s.switchToBodyId
  {
    s.trackedBodyId != s.switchToBodyId && s.switchToBodyId == body.userId
  }

  function SetTrackedBody(s: TrackerState, body: BodyData, now: real): Transition
  {
    Transition(
      s.(trackedBodyId := body.userId, trackedPlayerIndex := body.playerIndex, lastTimeBodyWasTracked := now),
      [body.userId])
  }

  function SetNoTrackedBody(s: TrackerState): Transition
  {
    Transition(s.(trackedBodyId := NoTrackedBodyId, trackedPlayerIndex := NotTrackedIndex), [NoTrackedBodyId])
  }

  /**
   * UpdateTrackedUserWith: one skeleton report, rules tried in order (acquire when nothing is
   * tracked, complete a pending override, refresh the tracked body, ignore anything else).
   */
  function UpdateTrackedUserWith(s: TrackerState, body: BodyData, now: real): (t: Transition)
    ensures |t.notified| <= 1
    ensures t.notified != [] ==> t.notified == [t.state.trackedBodyId]
    ensures t.state.trackedBodyId != s.trackedBodyId ==> t.notified != []
    ensures t.state.trackedBodyId == s.trackedBodyId || t.state.trackedBodyId == body.userId
    ensures t.state.switchToBodyId == s.switchToBodyId || t.state.switchToBodyId == NoTrackedBodyId
    ensures !body.isTracked ==>
      t.notified == [] && t.state.trackedBodyId == s.trackedBodyId
      && t.state.lastTimeBodyWasTracked == s.lastTimeBodyWasTracked
    ensures t.state.lastTimeBodyWasTracked == s.lastTimeBodyWasTracked || t.state.lastTimeBodyWasTracked == now
    ensures HasTrackedBody(s) && body.userId != s.trackedBodyId && body.userId != s.switchToBodyId ==>
      t == Transition(s, [])
  {
    if !HasTrackedBody(s) then
      if body.isTracked then SetTrackedBody(s, body, now) else Transition(s, [])
    else if IsOverrideBody(s, body) then
      var cleared := s.(switchToBodyId := NoTrackedBodyId);
      if body.isTracked then SetTrackedBody(cleared, body, now) else Transition(cleared, [])
    else if s.trackedBodyId == body.userId then
      var last := if body.isTracked then now else s.lastTimeBodyWasTracked;
      Transition(s.(trackedPlayerIndex := body.playerIndex, lastTimeBodyWasTracked := last), [])
    else
      Transition(s, [])
  }

  /** With nothing tracked, a tracked report is adopted (one notification); an untracked one is ignored. */
  lemma AcquireRule(s: TrackerState, body: BodyData, now: real)
    requires !HasTrackedBody(s)
    ensures body.isTracked ==>
      UpdateTrackedUserWith(s, body, now) == Transition(
        TrackerState(body.userId, body.playerIndex, now, s.switchToBodyId), [body.userId])
    ensures !body.isTracked ==> UpdateTrackedUserWith(s, body, now) == Transition(s, [])
  {
  }

  /** A report for the pending override id clears it, and switches to that body if it is tracked. */
  lemma OverrideRule(s: TrackerState, body: BodyData, now: real)
    requires HasTrackedBody(s) && IsOverrideBody(s, body)
    ensures body.isTracked ==>
      UpdateTrackedUserWith(s, body, now) == Transition(
        TrackerState(body.userId, body.playerIndex, now, NoTrackedBodyId), [body.userId])
    ensures !body.isTracked ==>
      UpdateTrackedUserWith(s, body, now) == Transition(s.(switchToBodyId := NoTrackedBodyId), [])
  {
  }

  /** A report for the tracked body updates its player index, and its time when tracked, silently. */
  lemma SameBodyRule(s: TrackerState, body: BodyData, now: real)
    requires HasTrackedBody(s) && !IsOverrideBody(s, body) && body.userId == s.trackedBodyId
    ensures UpdateTrackedUserWith(s, body, now) == Transition(
      s.(trackedPlayerIndex := body.playerIndex,
         lastTimeBodyWasTracked := if body.isTracked then now else s.lastTimeBodyWasTracked),
      [])
  {
  }

  /**
   * The timeout step at the end of Update: a tracked body whose last tracked report is more than
   * TimeToTimeoutTrackedUser old (strictly) is dropped with one notification.
   */
  function CheckTimeout(s: TrackerState, now: real): (t: Transition)
    ensures !HasTrackedBody(t.state) || now <= t.state.lastTimeBodyWasTracked + TimeToTimeoutTrackedUser
    ensures t.notified != [] <==> HasTrackedBody(s) && !HasTrackedBody(t.state)
    ensures t.notified != [] ==> t.notified == [NoTrackedBodyId] && t.state.trackedPlayerIndex == NotTrackedIndex
    ensures t.notified == [] ==> t.state == s
    ensures !(HasTrackedBody(s) && s.lastTimeBodyWasTracked + TimeToTimeoutTrackedUser < now) ==> t == Transition(s, [])
    ensures t.state.lastTimeBodyWasTracked == s.lastTimeBodyWasTracked
    ensures t.state.switchToBodyId == s.switchToBodyId
  {
    if HasTrackedBody(s) && s.lastTimeBodyWasTracked + TimeToTimeoutTrackedUser < now then SetNoTrackedBody(s)
    else Transition(s, [])
  }

  /** What a pose action does: the new state and the one command sent to the transmitter. */
  datatype PoseOutcome = PoseOutcome(state: TrackerState, command: Command)

  /**
   * ProcessPoseActionData: a Swith pose requests an override to the posing body; the two lasso
   * poses change the transmitter's device mode.
   */
  function ProcessPoseActionData(s: TrackerState, e: PoseEvent): (r: PoseOutcome)
    ensures r.state == s.(switchToBodyId := r.state.switchToBodyId)
    ensures r.command.HandTrackingBodyChange? <==> e.poseType == Swith
    ensures r.command.HandTrackingBodyChange? ==>
      r.command.bodyId == e.bodyId && r.state.switchToBodyId == e.bodyId
    ensures !r.command.HandTrackingBodyChange? ==> r.state == s && r.command.DeviceModeChange?
    ensures e.poseType == LassoLeft ==> r.command == DeviceModeChange(BodyInteractionDepth)
    ensures e.poseType == LassoReight ==> r.command == DeviceModeChange(InteractionDepth)
  {
    match e.poseType
    case Swith => PoseOutcome(s.(switchToBodyId := e.bodyId), HandTrackingBodyChange(e.bodyId))
    case LassoLeft => PoseOutcome(s, DeviceModeChange(BodyInteractionDepth))
    case LassoReight => PoseOutcome(s, DeviceModeChange(InteractionDepth))
  }

  /** The skeleton reports of one tick, applied in arrival order. */
  function ApplyReports(s: TrackerState, bodies: seq<BodyData>, now: real): Transition
    decreases |bodies|
  {
    if bodies == [] then Transition(s, [])
    else
      var before := ApplyReports(s, bodies[..|bodies| - 1], now);
      var step := UpdateTrackedUserWith(before.state, bodies[|bodies| - 1], now);
      Transition(step.state, before.notified + step.notified)
  }

  /** What the pose actions of one tick do, in arrival order. */
  datatype PoseOutcomes = PoseOutcomes(state: TrackerState, commands: seq<Command>)

  function ApplyPoseActions(s: TrackerState, events: seq<PoseEvent>): PoseOutcomes
    decreases |events|
  {
    if events == [] then PoseOutcomes(s, [])
    else
      var before := ApplyPoseActions(s, events[..|events| - 1]);
      var step := ProcessPoseActionData(before.state, events[|events| - 1]);
      PoseOutcomes(step.state, before.commands + [step.command])
  }

  /**
   * The notification log agrees with the tracked id: its last entry is the tracked id, and an
   * empty log means no body has ever been tracked.
   */
  predicate Announced(id: ulong, log: seq<ulong>)
  {
    if log == [] then id == NoTrackedBodyId else log[|log| - 1] == id
  }

  /** A sequence of reports keeps the notification log in agreement with the tracked id. */
  lemma {:induction false} ApplyReportsKeepsAnnounced(s: TrackerState, log: seq<ulong>, bodies: seq<BodyData>, now: real)
    requires Announced(s.trackedBodyId, log)
    ensures Announced(ApplyReports(s, bodies, now).state.trackedBodyId, log + ApplyReports(s, bodies, now).notified)
  {
    if bodies != [] {
      var before := ApplyReports(s, bodies[..|bodies| - 1], now);
      ApplyReportsKeepsAnnounced(s, log, bodies[..|bodies| - 1], now);
      var step := UpdateTrackedUserWith(before.state, bodies[|bodies| - 1], now);
      assert log + (before.notified + step.notified) == (log + before.notified) + step.notified;
    }
  }

  /** The timeout step keeps the notification log in agreement with the tracked id. */
  lemma CheckTimeoutKeepsAnnounced(s: TrackerState, log: seq<ulong>, now: real)
    requires Announced(s.trackedBodyId, log)
    ensures Announced(CheckTimeout(s, now).state.trackedBodyId, log + CheckTimeout(s, now).notified)
  {
    if CheckTimeout(s, now).notified == [] {
      assert log + [] == log;
    }
  }

  /** Untracked reports never change the tracked body and never notify. */
  lemma {:induction false} UntrackedReportsKeepTrackedBody(s: TrackerState, bodies: seq<BodyData>, now: real)
    requires forall k :: 0 <= k < |bodies| ==> !bodies[k].isTracked
    ensures ApplyReports(s, bodies, now).state.trackedBodyId == s.trackedBodyId
    ensures ApplyReports(s, bodies, now).notified == []
  {
    if bodies != [] {
      UntrackedReportsKeepTrackedBody(s, bodies[..|bodies| - 1], now);
    }
  }

  /** While a body is tracked, reports about bodies that are neither tracked nor pending change nothing. */
  lemma {:induction false} IgnoredReportsChangeNothing(s: TrackerState, bodies: seq<BodyData>, now: real)
    requires HasTrackedBody(s)
    requires forall k :: 0 <= k < |bodies| ==>
      bodies[k].userId != s.trackedBodyId && bodies[k].userId != s.switchToBodyId
    ensures ApplyReports(s, bodies, now) == Transition(s, [])
  {
    if bodies != [] {
      IgnoredReportsChangeNothing(s, bodies[..|bodies| - 1], now);
    }
  }

  /**
   * The override protocol end to end: while body `s.trackedBodyId` is tracked, a Swith pose by
   * `target` followed by reports about other bodies and then a tracked report for `target`
   * switches tracking to `target` with exactly one notification and clears the pending id.
   */
  lemma {:induction false} OverrideCompletes(s: TrackerState, target: BodyData, others: seq<BodyData>, now: real)
    requires HasTrackedBody(s) && target.isTracked && target.userId != s.trackedBodyId
    requires forall k :: 0 <= k < |others| ==>
      others[k].userId != s.trackedBodyId && others[k].userId != target.userId
    ensures var pending := ProcessPoseActionData(s, PoseEvent(target.userId, Swith));
      && pending.command == HandTrackingBodyChange(target.userId)
      && ApplyReports(pending.state, others + [target], now) == Transition(
           TrackerState(target.userId, target.playerIndex, now, NoTrackedBodyId), [target.userId])
  {
    var pending := ProcessPoseActionData(s, PoseEvent(target.userId, Swith));
    IgnoredReportsChangeNothing(pending.state, others, now);
    var all := others + [target];
    assert all[..|all| - 1] == others;
    OverrideRule(pending.state, target, now);
  }

  /** Pose actions change nothing but the pending override id, and send one command each. */
  lemma {:induction false} PoseActionsTouchOnlyPendingId(s: TrackerState, events: seq<PoseEvent>)
    ensures ApplyPoseActions(s, events).state == s.(switchToBodyId := ApplyPoseActions(s, events).state.switchToBodyId)
    ensures |ApplyPoseActions(s, events).commands| == |events|
  {
    if events != [] {
      PoseActionsTouchOnlyPendingId(s, events[..|events| - 1]);
    }
  }
}
