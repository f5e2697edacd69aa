/**
 * What one Update of a started and enabled manager does, stated on the value-level step
 * functions of module Kinect2 and connected to the body-tracking rules of module BodyTracker.
 */
module TickProperties {
  import opened Wrappers
  import opened DataConverter
  import opened FrameDecoder
  import opened Kinect2
  import BodyTracker

  /** A run of skeleton lines does what ApplyReports says to the tracker, and keeps the last report. */
  lemma {:induction false} SkeletonReportsHandledEffect(m: ManagerState, lines: seq<Line>, now: real)
    ensures var r := SkeletonReportsHandled(m, lines, now);
      var t := BodyTracker.ApplyReports(m.tracker, SkeletonReports(lines), now);
      && r.tracker == t.state && r.trackedUserChanges == m.trackedUserChanges + t.notified
      && r.bodyData == LastReport(m.bodyData, SkeletonReports(lines))
      && r.inbox == m.inbox && r.buffers == m.buffers && r.commands == m.commands && r.deliveries == m.deliveries
    decreases |lines|
  {
    if lines != [] {
      var front := lines[..|lines| - 1];
      SkeletonReportsHandledEffect(m, front, now);
      var done := SkeletonReports(front);
      var reports := SkeletonReports(lines);
      assert reports == done + [lines[|lines| - 1].content.body];
      assert reports[..|reports| - 1] == done;
      var before := BodyTracker.ApplyReports(m.tracker, done, now);
      var step := BodyTracker.UpdateTrackedUserWith(before.state, lines[|lines| - 1].content.body, now);
      assert m.trackedUserChanges + before.notified + step.notified
          == m.trackedUserChanges + (before.notified + step.notified);
    }
  }

  /** A run of pose-action lines does what ApplyPoseActions says, and touches nothing else. */
  lemma {:induction false} PoseActionsHandledEffect(m: ManagerState, lines: seq<Line>)
    ensures var r := PoseActionsHandled(m, lines);
      var o := BodyTracker.ApplyPoseActions(m.tracker, PoseEvents(lines));
      && r.tracker == o.state && r.commands == m.commands + o.commands
      && r.inbox == m.inbox && r.buffers == m.buffers && r.bodyData == m.bodyData
      && r.trackedUserChanges == m.trackedUserChanges && r.deliveries == m.deliveries
    decreases |lines|
  {
    if lines != [] {
      var front := lines[..|lines| - 1];
      PoseActionsHandledEffect(m, front);
      var done := PoseEvents(front);
      var events := PoseEvents(lines);
      assert events[..|events| - 1] == done;
      var before := BodyTracker.ApplyPoseActions(m.tracker, done);
      var step := BodyTracker.ProcessPoseActionData(before.state, lines[|lines| - 1].content.pose);
      assert m.commands + before.commands + [step.command] == m.commands + (before.commands + [step.command]);
    }
  }

  /**
   * The queue blocks of one Update, all at once: every queue is emptied; face-tracking and then
   * interaction contents reach their subscribers in arrival order; the skeleton reports, then the
   * pose actions, then the timeout test drive the tracked body; the flags and buffers are kept.
   */
  lemma QueuesProcessedEffect(m: ManagerState, subs: Subscribers, now: real)
    ensures var r := QueuesProcessed(m, subs, now);
      var reports := SkeletonReports(m.inbox.skeletonData);
      var seen := BodyTracker.ApplyReports(m.tracker, reports, now);
      var posed := BodyTracker.ApplyPoseActions(seen.state, PoseEvents(m.inbox.poseActionData));
      var timed := BodyTracker.CheckTimeout(posed.state, now);
      && r.inbox == m.inbox.(faceTrackingData := [], skeletonData := [], interactionData := [], poseActionData := [])
      && r.tracker == timed.state
      && r.trackedUserChanges == m.trackedUserChanges + seen.notified + timed.notified
      && r.bodyData == LastReport(m.bodyData, reports)
      && r.commands == m.commands + posed.commands
      && r.deliveries == m.deliveries
           + (if subs.faceTracking then FaceDeliveries(m.inbox.faceTrackingData) else [])
           + (if subs.interaction then InteractionDeliveries(m.inbox.interactionData) else [])
      && r.buffers == m.buffers
  {
    var m1 := FaceTrackingDrained(m, subs);
    SkeletonReportsHandledEffect(m1.(inbox := m1.inbox.(skeletonData := [])), m.inbox.skeletonData, now);
    var m2 := SkeletonDrained(m1, now);
    var m3 := InteractionDrained(m2, subs);
    PoseActionsHandledEffect(m3.(inbox := m3.inbox.(poseActionData := [])), m.inbox.poseActionData);
  }

  /** Whether each frame branch of the new-frame block raises its event. */
  predicate VideoFires(m: ManagerState, subs: Subscribers, streams: StreamData)
  {
    m.inbox.hasNewVideoContent && subs.videoFrame && streams.video.Some?
  }

  predicate DepthFires(m: ManagerState, subs: Subscribers)
  {
    m.inbox.hasNewDepthContent && subs.depthFrame
  }

  predicate InfraRedFires(m: ManagerState, subs: Subscribers)
  {
    m.inbox.hasNewInfraRedContent && subs.infraRedFrame
  }

  /** The video block: only the video flag, the colour buffer and one delivery can change. */
  lemma VideoContentEffect(m: ManagerState, subs: Subscribers, video: Option<seq<byte>>)
    ensures var r := VideoContentProcessed(m, subs, video);
      && r.inbox == m.inbox.(hasNewVideoContent := false)
      && r.buffers == m.buffers.(color :=
           if m.inbox.hasNewVideoContent && subs.videoFrame && video.Some? then Some(ColorPixels(video.value))
           else m.buffers.color)
      && r.deliveries == m.deliveries
           + (if m.inbox.hasNewVideoContent && subs.videoFrame && video.Some?
              then [VideoFrameDataReceived(ColorPixels(video.value))] else [])
      && r.tracker == m.tracker && r.bodyData == m.bodyData
      && r.commands == m.commands && r.trackedUserChanges == m.trackedUserChanges
  {
  }

  /** The depth block: only the depth flag, the depth buffer and one delivery can change. */
  lemma DepthContentEffect(m: ManagerState, subs: Subscribers, depth: Option<seq<byte>>)
    ensures var r := DepthContentProcessed(m, subs, depth);
      && r.inbox == m.inbox.(hasNewDepthContent := false)
      && r.buffers == m.buffers.(depth := if DepthFires(m, subs) then SamplesAfter(depth, m.buffers.depth) else m.buffers.depth)
      && r.deliveries == m.deliveries + (if DepthFires(m, subs) then [DepthFrameDataReceived(r.buffers.depth)] else [])
      && r.tracker == m.tracker && r.bodyData == m.bodyData
      && r.commands == m.commands && r.trackedUserChanges == m.trackedUserChanges
  {
  }

  /** The infrared block: it lowers the depth flag, not its own, when an infrared frame was announced. */
  lemma InfraRedContentEffect(m: ManagerState, subs: Subscribers, infraRed: Option<seq<byte>>)
    ensures var r := InfraRedContentProcessed(m, subs, infraRed);
      && r.inbox == (if m.inbox.hasNewInfraRedContent then m.inbox.(hasNewDepthContent := false) else m.inbox)
      && r.buffers == m.buffers.(infraRed :=
           if InfraRedFires(m, subs) then SamplesAfter(infraRed, m.buffers.infraRed) else m.buffers.infraRed)
      && r.deliveries == m.deliveries
           + (if InfraRedFires(m, subs) then [InfraRedFrameDataReceived(r.buffers.infraRed)] else [])
      && r.tracker == m.tracker && r.bodyData == m.bodyData
      && r.commands == m.commands && r.trackedUserChanges == m.trackedUserChanges
  {
  }

  /**
   * The new-frame block, all at once: the video and depth flags end lowered and the infrared flag
   * as it was; each branch that fires decodes its frame into its buffer and raises one event, in
   * the order video, depth, infrared, and a depth or infrared event carries the buffer as it is
   * after decoding; the queues, the tracked body and the other logs are kept.
   */
  lemma FramesProcessedEffect(m: ManagerState, subs: Subscribers, streams: StreamData)
    ensures var r := FramesProcessed(m, subs, streams);
      && r.inbox == m.inbox.(hasNewVideoContent := false, hasNewDepthContent := false)
      && r.buffers.color == (if VideoFires(m, subs, streams) then Some(ColorPixels(streams.video.value)) else m.buffers.color)
      && r.buffers.depth == (if DepthFires(m, subs) then SamplesAfter(streams.depth, m.buffers.depth) else m.buffers.depth)
      && r.buffers.infraRed ==
           (if InfraRedFires(m, subs) then SamplesAfter(streams.infraRed, m.buffers.infraRed) else m.buffers.infraRed)
      && r.deliveries == m.deliveries
           + (if VideoFires(m, subs, streams) then [VideoFrameDataReceived(ColorPixels(streams.video.value))] else [])
           + (if DepthFires(m, subs) then [DepthFrameDataReceived(r.buffers.depth)] else [])
           + (if InfraRedFires(m, subs) then [InfraRedFrameDataReceived(r.buffers.infraRed)] else [])
      && r.tracker == m.tracker && r.bodyData == m.bodyData
      && r.commands == m.commands && r.trackedUserChanges == m.trackedUserChanges
  {
    var video := VideoContentProcessed(m, subs, streams.video);
    VideoContentEffect(m, subs, streams.video);
    var depth := DepthContentProcessed(video, subs, streams.depth);
    DepthContentEffect(video, subs, streams.depth);
    InfraRedContentEffect(depth, subs, streams.infraRed);
  }

  /**
   * The infrared branch lowers the depth flag instead of its own, so once an infrared frame has
   * been announced, every later Update with a subscriber raises InfraRedFrameDataReceived again.
   */
  lemma {:induction false} InfraRedFrameRepeats(m: ManagerState, subs: Subscribers, ticks: seq<TickInput>)
    requires m.inbox.hasNewInfraRedContent && subs.infraRedFrame
    ensures var r := Run(m, subs, ticks);
      && r.inbox.hasNewInfraRedContent
      && |r.deliveries| >= |m.deliveries| + |ticks|
    decreases |ticks|
  {
    if ticks != [] {
      var front := ticks[..|ticks| - 1];
      InfraRedFrameRepeats(m, subs, front);
      var before := Run(m, subs, front);
      var last := ticks[|ticks| - 1];
      var framed := FramesProcessed(before, subs, last.streams);
      FramesProcessedEffect(before, subs, last.streams);
      QueuesProcessedEffect(framed, subs, last.now);
    }
  }

  /** The time of one Update and what the stream accessors return during it. */
  datatype TickInput = TickInput(now: real, streams: StreamData)

  /** Successive Updates of a started and enabled manager. */
  function Run(m: ManagerState, subs: Subscribers, ticks: seq<TickInput>): ManagerState
    decreases |ticks|
  {
    if ticks == [] then m
    else
      var last := ticks[|ticks| - 1];
      Ticked(Run(m, subs, ticks[..|ticks| - 1]), subs, last.now, last.streams)
  }

  /** One Update keeps the TrackedUserChanged log in agreement with the tracked id. */
  lemma TickedKeepsAnnounced(m: ManagerState, subs: Subscribers, now: real, streams: StreamData)
    requires BodyTracker.Announced(m.tracker.trackedBodyId, m.trackedUserChanges)
    ensures var r := Ticked(m, subs, now, streams);
      BodyTracker.Announced(r.tracker.trackedBodyId, r.trackedUserChanges)
  {
    var framed := FramesProcessed(m, subs, streams);
    FramesProcessedEffect(m, subs, streams);
    QueuesProcessedEffect(framed, subs, now);
    var reports := SkeletonReports(framed.inbox.skeletonData);
    var seen := BodyTracker.ApplyReports(m.tracker, reports, now);
    BodyTracker.ApplyReportsKeepsAnnounced(m.tracker, m.trackedUserChanges, reports, now);
    var posed := BodyTracker.ApplyPoseActions(seen.state, PoseEvents(framed.inbox.poseActionData));
    BodyTracker.PoseActionsTouchOnlyPendingId(seen.state, PoseEvents(framed.inbox.poseActionData));
    BodyTracker.CheckTimeoutKeepsAnnounced(posed.state, m.trackedUserChanges + seen.notified, now);
  }

  /**
   * A face-tracking line received before an Update reaches the subscriber in that Update, right
   * after the frame events and the lines queued before it.
   */
  lemma ReceivedFaceTrackingLineIsDelivered(m: ManagerState, subs: Subscribers, now: real, streams: StreamData, line: Line)
    requires subs.faceTracking
    ensures var received := m.(inbox := Receive(m.inbox, Some(FaceTrackingData), line));
      var r := Ticked(received, subs, now, streams);
      var k := |FramesProcessed(received, subs, streams).deliveries| + |m.inbox.faceTrackingData|;
      k < |r.deliveries| && r.deliveries[k] == FaceTrackingDataReceived(line.content.text)
  {
    var received := m.(inbox := Receive(m.inbox, Some(FaceTrackingData), line));
    var frames := FramesProcessed(received, subs, streams);
    FramesProcessedEffect(received, subs, streams);
    QueuesProcessedEffect(frames, subs, now);
    var queue := received.inbox.faceTrackingData;
    assert queue == m.inbox.faceTrackingData + [line];
    assert queue[..|queue| - 1] == m.inbox.faceTrackingData;
    var earlier := FaceDeliveries(m.inbox.faceTrackingData);
    FaceDeliveriesLength(m.inbox.faceTrackingData);
    assert FaceDeliveries(queue) == earlier + [FaceTrackingDataReceived(line.content.text)];
    var rest := if subs.interaction then InteractionDeliveries(frames.inbox.interactionData) else [];
    assert Ticked(received, subs, now, streams).deliveries
        == frames.deliveries + (earlier + [FaceTrackingDataReceived(line.content.text)]) + rest;
  }

  lemma {:induction false} FaceDeliveriesLength(lines: seq<Line>)
    ensures |FaceDeliveries(lines)| == |lines|
    decreases |lines|
  {
    if lines != [] {
      FaceDeliveriesLength(lines[..|lines| - 1]);
    }
  }

  /** The skeleton report received last before an Update is the one kept in `bodyData` after it. */
  lemma ReceivedSkeletonLineIsLastReport(m: ManagerState, subs: Subscribers, now: real, streams: StreamData, line: Line)
    ensures var received := m.(inbox := Receive(m.inbox, Some(SkeletonData), line));
      Ticked(received, subs, now, streams).bodyData == Some(line.content.body)
  {
    var received := m.(inbox := Receive(m.inbox, Some(SkeletonData), line));
    var frames := FramesProcessed(received, subs, streams);
    FramesProcessedEffect(received, subs, streams);
    QueuesProcessedEffect(frames, subs, now);
    assert received.inbox.skeletonData == m.inbox.skeletonData + [line];
  }

  /** With nothing buffered and no tracked body, an Update changes nothing. */
  lemma IdleTickChangesNothing(m: ManagerState, subs: Subscribers, now: real, streams: StreamData)
    requires m.inbox == EmptyInbox && !BodyTracker.HasTrackedBody(m.tracker)
    ensures Ticked(m, subs, now, streams) == m
  {
    FramesProcessedEffect(m, subs, streams);
    QueuesProcessedEffect(FramesProcessed(m, subs, streams), subs, now);
  }
}
