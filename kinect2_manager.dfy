/**
 * Kinect2Manager: receives the data transmitter's messages, buffers them by category, and once per
 * Update drains the buffers, decodes frames, keeps the tracked body and invokes the subscribers.
 *
 * Effects that leave the manager are logs on the object: `commands` (lines written to the
 * transmitter's standard input), `trackedUserChanges` (every raised TrackedUserChanged, with its id)
 * and `deliveries` (every invocation of the other events, with the data passed).
 */
module Kinect2 {
  import opened Wrappers
  import opened DataConverter
  import opened FrameDecoder
  import BodyTracker

  /** The position of a category in the if/else chain of ParseReceivedData (earlier is tried first). */
  function Rank(c: Category): nat
  {
    match c
    case FaceTrackingData => 0
    case SkeletonData => 1
    case VideoFrameData => 2
    case DepthFrameData => 3
    case InfraRedFrameData => 4
    case PingMessage => 5
    case ErrorMessage => 6
    case InformationMessage => 7
    case NewInteractionUserData => 8
    case InteractionUserLeftData => 9
    case InteractionData => 10
    case PoseActionData => 11
  }

  /** Every category has a place in the chain, and each place holds exactly that category. */
  lemma RankIsChainPosition(c: Category)
    ensures Rank(c) < 12
    ensures c == [FaceTrackingData, SkeletonData, VideoFrameData, DepthFrameData, InfraRedFrameData,
                  PingMessage, ErrorMessage, InformationMessage, NewInteractionUserData,
                  InteractionUserLeftData, InteractionData, PoseActionData][Rank(c)]
  {
  }

  /**
   * The branch of the if/else chain a line takes, given the categories whose predicates accept
   * it: the earliest of them in the chain; None is the final "unknown message" branch.
   */
  function Classify(tags: set<Category>): (c: Option<Category>)
    ensures c.Some? ==> c.value in tags && forall t :: t in tags ==> Rank(c.value) <= Rank(t)
    ensures c.None? <==> tags == {}
  {
    if FaceTrackingData in tags then Some(FaceTrackingData)
    else if SkeletonData in tags then Some(SkeletonData)
    else if VideoFrameData in tags then Some(VideoFrameData)
    else if DepthFrameData in tags then Some(DepthFrameData)
    else if InfraRedFrameData in tags then Some(InfraRedFrameData)
    else if PingMessage in tags then Some(PingMessage)
    else if ErrorMessage in tags then Some(ErrorMessage)
    else if InformationMessage in tags then Some(InformationMessage)
    else if NewInteractionUserData in tags then Some(NewInteractionUserData)
    else if InteractionUserLeftData in tags then Some(InteractionUserLeftData)
    else if InteractionData in tags then Some(InteractionData)
    else if PoseActionData in tags then Some(PoseActionData)
    else
      assert forall t :: t !in tags by {
        forall t: Category ensures t !in tags {
          RankIsChainPosition(t);
        }
      }
      None
  }

  /** Whether each event has at least one subscriber (its delegate is non-null). */
  datatype Subscribers = Subscribers(
    faceTracking: bool, videoFrame: bool, depthFrame: bool, infraRedFrame: bool, interaction: bool)

  const NoSubscribers := Subscribers(false, false, false, false, false)

  /**
   * One invocation of a data event. Face and interaction data are recorded by the content handed
   * to the converter's decoder; frames by the samples in the buffer passed (None for a null array).
   */
  datatype Delivery =
    | FaceTrackingDataReceived(content: string)
    | InteractionDataReceived(content: string)
    | VideoFrameDataReceived(pixels: seq<Color32>)
    | DepthFrameDataReceived(samples: Option<seq<ushort>>)
    | InfraRedFrameDataReceived(samples: Option<seq<ushort>>)

  /** The receive-side buffering state: the four queues and the three new-frame flags. */
  datatype Inbox = Inbox(
    faceTrackingData: seq<Line>,
    skeletonData: seq<Line>,
    interactionData: seq<Line>,
    poseActionData: seq<Line>,
    hasNewVideoContent: bool,
    hasNewDepthContent: bool,
    hasNewInfraRedContent: bool)

  const EmptyInbox := Inbox([], [], [], [], false, false, false)

  /** The categories that are queued (the frame categories only raise a flag). */
  predicate IsQueued(c: Category)
  {
    c in {FaceTrackingData, SkeletonData, InteractionData, PoseActionData}
  }

  function QueueOf(inbox: Inbox, c: Category): seq<Line>
  {
    match c
    case FaceTrackingData => inbox.faceTrackingData
    case SkeletonData => inbox.skeletonData
    case InteractionData => inbox.interactionData
    case PoseActionData => inbox.poseActionData
    case _ => []
  }

  function QueuedCount(inbox: Inbox): nat
  {
    |inbox.faceTrackingData| + |inbox.skeletonData| + |inbox.interactionData| + |inbox.poseActionData|
  }

  /**
   * What an accepted line of branch `c` does to the inbox: a queued category appends the whole
   * line to its own queue, a frame category raises its flag, every other branch leaves it alone.
   */
  function Receive(inbox: Inbox, c: Option<Category>, line: Line): (r: Inbox)
    ensures QueuedCount(r) == QueuedCount(inbox) + (if c.Some? && IsQueued(c.value) then 1 else 0)
    ensures c.Some? && IsQueued(c.value) ==> QueueOf(r, c.value) == QueueOf(inbox, c.value) + [line]
    ensures forall q: Category :: c.None? || q != c.value ==> QueueOf(r, q) == QueueOf(inbox, q)
    ensures r.hasNewVideoContent == (inbox.hasNewVideoContent || c == Some(VideoFrameData))
    ensures r.hasNewDepthContent == (inbox.hasNewDepthContent || c == Some(DepthFrameData))
    ensures r.hasNewInfraRedContent == (inbox.hasNewInfraRedContent || c == Some(InfraRedFrameData))
  {
    match c
    case Some(FaceTrackingData) => inbox.(faceTrackingData := inbox.faceTrackingData + [line])
    case Some(SkeletonData) => inbox.(skeletonData := inbox.skeletonData + [line])
    case Some(VideoFrameData) => inbox.(hasNewVideoContent := true)
    case Some(DepthFrameData) => inbox.(hasNewDepthContent := true)
    case Some(InfraRedFrameData) => inbox.(hasNewInfraRedContent := true)
    case Some(InteractionData) => inbox.(interactionData := inbox.interactionData + [line])
    case Some(PoseActionData) => inbox.(poseActionData := inbox.poseActionData + [line])
    case _ => inbox
  }

  /**
   * The inbox after ClearData: all four queues empty and the video and depth flags down; the
   * infrared flag is kept (ClearData does not reset it).
   */
  function Cleared(inbox: Inbox): (r: Inbox)
    ensures QueuedCount(r) == 0
    ensures !r.hasNewVideoContent && !r.hasNewDepthContent
    ensures r.hasNewInfraRedContent == inbox.hasNewInfraRedContent
  {
    Inbox([], [], [], [], false, false, inbox.hasNewInfraRedContent)
  }

  /** The decoded skeleton reports of queued skeleton lines, in arrival order. */
  function SkeletonReports(lines: seq<Line>): seq<BodyData>
    decreases |lines|
  {
    if lines == [] then []
    else
      SkeletonReports(lines[..|lines| - 1]) + [lines[|lines| - 1].content.body]
  }

  /** The decoded pose events of queued pose-action lines, in arrival order. */
  function PoseEvents(lines: seq<Line>): seq<PoseEvent>
    decreases |lines|
  {
    if lines == [] then []
    else
      PoseEvents(lines[..|lines| - 1]) + [lines[|lines| - 1].content.pose]
  }

  /** The FaceTrackingDataReceived invocations for queued face-tracking lines, in arrival order. */
  function FaceDeliveries(lines: seq<Line>): seq<Delivery>
    decreases |lines|
  {
    if lines == [] then []
    else
      FaceDeliveries(lines[..|lines| - 1]) + [FaceTrackingDataReceived(lines[|lines| - 1].content.text)]
  }

  lemma FaceDeliveriesStep(lines: seq<Line>, i: nat)
    requires i < |lines|
    ensures FaceDeliveries(lines[..i + 1]) == FaceDeliveries(lines[..i]) + [FaceTrackingDataReceived(lines[i].content.text)]
  {
    assert lines[..i + 1][..i] == lines[..i];
  }

  /** The InteractionDataReceived invocations for queued interaction lines, in arrival order. */
  function InteractionDeliveries(lines: seq<Line>): seq<Delivery>
    decreases |lines|
  {
    if lines == [] then []
    else
      InteractionDeliveries(lines[..|lines| - 1]) + [InteractionDataReceived(lines[|lines| - 1].content.text)]
  }

  lemma InteractionDeliveriesStep(lines: seq<Line>, i: nat)
    requires i < |lines|
    ensures InteractionDeliveries(lines[..i + 1])
         == InteractionDeliveries(lines[..i]) + [InteractionDataReceived(lines[i].content.text)]
  {
    assert lines[..i + 1][..i] == lines[..i];
  }

  /** The `bodyData` field after a run of reports: the last report, if any. */
  function LastReport(previous: Option<BodyData>, reports: seq<BodyData>): Option<BodyData>
  {
    if reports == [] then previous else Some(reports[|reports| - 1])
  }

  /** What the converter's three stream accessors return, None for a null array. */
  datatype StreamData = StreamData(video: Option<seq<byte>>, depth: Option<seq<byte>>, infraRed: Option<seq<byte>>)

  /** The contents of the colour, depth and infrared buffers, None for a null array. */
  datatype FrameBuffers = FrameBuffers(
    color: Option<seq<Color32>>, depth: Option<seq<ushort>>, infraRed: Option<seq<ushort>>)

  /** The samples a 16-bit buffer holds once `frame` has been processed into it. */
  function SamplesAfter(frame: Option<seq<byte>>, current: Option<seq<ushort>>): Option<seq<ushort>>
  {
    if frame.Some? then Some(Samples16(frame.value)) else current
  }

  /**
   * The manager's data fields as a value: the receive-side buffering, the tracked body, the frame
   * buffers' contents, the last skeleton report and the three logs (everything but the lifecycle
   * flags, the frame counter and the subscribers).
   */
  datatype ManagerState = ManagerState(
    inbox: Inbox,
    tracker: BodyTracker.TrackerState,
    buffers: FrameBuffers,
    bodyData: Option<BodyData>,
    commands: seq<Command>,
    trackedUserChanges: seq<ulong>,
    deliveries: seq<Delivery>)

  /**
   * ProcessVideoFrame: with a subscriber and a non-null frame, the frame is decoded into the
   * colour buffer and handed to VideoFrameDataReceived; otherwise nothing changes.
   */
  function VideoFrameProcessed(m: ManagerState, subs: Subscribers, video: Option<seq<byte>>): ManagerState
  {
    if video.None? || !subs.videoFrame then m
    else
      var pixels := ColorPixels(video.value);
      m.(buffers := m.buffers.(color := Some(pixels)), deliveries := m.deliveries + [VideoFrameDataReceived(pixels)])
  }

  /**
   * ProcessDepthFrame: with a subscriber, the frame is decoded into the depth buffer (a null frame
   * leaves it alone) and the buffer is handed to DepthFrameDataReceived.
   */
  function DepthFrameProcessed(m: ManagerState, subs: Subscribers, depth: Option<seq<byte>>): ManagerState
  {
    if !subs.depthFrame then m
    else
      var samples := SamplesAfter(depth, m.buffers.depth);
      m.(buffers := m.buffers.(depth := samples), deliveries := m.deliveries + [DepthFrameDataReceived(samples)])
  }

  /** ProcessInfraRedFrame, as ProcessDepthFrame for the infrared buffer. */
  function InfraRedFrameProcessed(m: ManagerState, subs: Subscribers, infraRed: Option<seq<byte>>): ManagerState
  {
    if !subs.infraRedFrame then m
    else
      var samples := SamplesAfter(infraRed, m.buffers.infraRed);
      m.(buffers := m.buffers.(infraRed := samples), deliveries := m.deliveries + [InfraRedFrameDataReceived(samples)])
  }

  /** The video branch of the new-frame block: when its flag is raised, the frame is processed and the flag lowered. */
  function VideoContentProcessed(m: ManagerState, subs: Subscribers, video: Option<seq<byte>>): ManagerState
  {
    if !m.inbox.hasNewVideoContent then m
    else
      var n := VideoFrameProcessed(m, subs, video);
      n.(inbox := n.inbox.(hasNewVideoContent := false))
  }

  /** The depth branch, as the video one. */
  function DepthContentProcessed(m: ManagerState, subs: Subscribers, depth: Option<seq<byte>>): ManagerState
  {
    if !m.inbox.hasNewDepthContent then m
    else
      var n := DepthFrameProcessed(m, subs, depth);
      n.(inbox := n.inbox.(hasNewDepthContent := false))
  }

  /** The infrared branch, as the others except that it lowers the depth flag instead of its own. */
  function InfraRedContentProcessed(m: ManagerState, subs: Subscribers, infraRed: Option<seq<byte>>): ManagerState
  {
    if !m.inbox.hasNewInfraRedContent then m
    else
      var n := InfraRedFrameProcessed(m, subs, infraRed);
      n.(inbox := n.inbox.(hasNewDepthContent := false))
  }

  /** The new-frame block of Update: the video, depth and infrared branches in turn. */
  function FramesProcessed(m: ManagerState, subs: Subscribers, streams: StreamData): ManagerState
  {
    InfraRedContentProcessed(
      DepthContentProcessed(VideoContentProcessed(m, subs, streams.video), subs, streams.depth),
      subs, streams.infraRed)
  }

  /** The face-tracking block of Update. */
  function FaceTrackingDrained(m: ManagerState, subs: Subscribers): ManagerState
  {
    m.(inbox := m.inbox.(faceTrackingData := []),
       deliveries := m.deliveries + (if subs.faceTracking then FaceDeliveries(m.inbox.faceTrackingData) else []))
  }

  /** One skeleton report handled: UpdateTrackedUserWith, then the report is kept in `bodyData`. */
  function SkeletonReportHandled(m: ManagerState, data: Content, now: real): ManagerState
  {
    var t := BodyTracker.UpdateTrackedUserWith(m.tracker, data.body, now);
    m.(tracker := t.state, bodyData := Some(data.body), trackedUserChanges := m.trackedUserChanges + t.notified)
  }

  /** A run of skeleton lines handled in order. */
  function SkeletonReportsHandled(m: ManagerState, lines: seq<Line>, now: real): ManagerState
    decreases |lines|
  {
    if lines == [] then m
    else SkeletonReportHandled(SkeletonReportsHandled(m, lines[..|lines| - 1], now), lines[|lines| - 1].content, now)
  }

  lemma SkeletonReportsHandledStep(m: ManagerState, lines: seq<Line>, i: nat, now: real)
    requires i < |lines|
    ensures SkeletonReportsHandled(m, lines[..i + 1], now)
         == SkeletonReportHandled(SkeletonReportsHandled(m, lines[..i], now), lines[i].content, now)
  {
    assert lines[..i + 1][..i] == lines[..i];
  }

  /** The skeleton block of Update. */
  function SkeletonDrained(m: ManagerState, now: real): ManagerState
  {
    SkeletonReportsHandled(m.(inbox := m.inbox.(skeletonData := [])), m.inbox.skeletonData, now)
  }

  /** The interaction block of Update. */
  function InteractionDrained(m: ManagerState, subs: Subscribers): ManagerState
  {
    m.(inbox := m.inbox.(interactionData := []),
       deliveries := m.deliveries + (if subs.interaction then InteractionDeliveries(m.inbox.interactionData) else []))
  }

  /** One pose-action report handled: the tracker and the command log after ProcessPoseActionData. */
  function PoseActionHandled(m: ManagerState, data: Content): ManagerState
  {
    var o := BodyTracker.ProcessPoseActionData(m.tracker, data.pose);
    m.(tracker := o.state, commands := m.commands + [o.command])
  }

  /** A run of pose-action lines handled in order. */
  function PoseActionsHandled(m: ManagerState, lines: seq<Line>): ManagerState
    decreases |lines|
  {
    if lines == [] then m
    else PoseActionHandled(PoseActionsHandled(m, lines[..|lines| - 1]), lines[|lines| - 1].content)
  }

  lemma PoseActionsHandledStep(m: ManagerState, lines: seq<Line>, i: nat)
    requires i < |lines|
    ensures PoseActionsHandled(m, lines[..i + 1]) == PoseActionHandled(PoseActionsHandled(m, lines[..i]), lines[i].content)
  {
    assert lines[..i + 1][..i] == lines[..i];
  }

  /** The pose-action block of Update. */
  function PoseActionsDrained(m: ManagerState): ManagerState
  {
    PoseActionsHandled(m.(inbox := m.inbox.(poseActionData := [])), m.inbox.poseActionData)
  }

  /** The timeout test at the end of Update. */
  function TimedOut(m: ManagerState, now: real): ManagerState
  {
    var t := BodyTracker.CheckTimeout(m.tracker, now);
    m.(tracker := t.state, trackedUserChanges := m.trackedUserChanges + t.notified)
  }

  /** The queue blocks of Update in source order, then the timeout test. */
  function QueuesProcessed(m: ManagerState, subs: Subscribers, now: real): ManagerState
  {
    TimedOut(PoseActionsDrained(InteractionDrained(SkeletonDrained(FaceTrackingDrained(m, subs), now), subs)), now)
  }

  /** One Update of a started and enabled manager, given what the stream accessors return. */
  function Ticked(m: ManagerState, subs: Subscribers, now: real, streams: StreamData): ManagerState
  {
    QueuesProcessed(FramesProcessed(m, subs, streams), subs, now)
  }

  /** The samples a 16-bit buffer holds, None for a null array. */
  function SamplesView(buffer: array?<ushort>): Option<seq<ushort>>
    reads buffer
  {
    if buffer == null then None else Some(buffer[..])
  }

  /** The pixels a colour buffer holds, None for a null array. */
  function ColorView(buffer: array?<Color32>): Option<seq<Color32>>
    reads buffer
  {
    if buffer == null then None else Some(buffer[..])
  }

  class Kinect2Manager {
    var subscribers: Subscribers
    var isStarted: bool
    var isEnabled: bool
    var frame: int

    var hasNewVideoContent: bool
    var hasNewDepthContent: bool
    var hasNewInfraRedContent: bool
    var faceTrackingData: seq<Line>
    var skeletonData: seq<Line>
    var interactionData: seq<Line>
    var poseActionData: seq<Line>

    var depthBuffer: array?<ushort>
    var infraRedBuffer: array?<ushort>
    var colorBuffer: array?<Color32>

    var trackedBodyId: ulong
    var trackedPlayerIndex: int32
    var lastTimeBodyWasTracked: real
    var switchToBodyId: ulong
    var bodyData: Option<BodyData>

    var commands: seq<Command>
    var trackedUserChanges: seq<ulong>
    var deliveries: seq<Delivery>

    /** The tracking fields as a value. */
    function Tracker(): BodyTracker.TrackerState
      reads this`trackedBodyId, this`trackedPlayerIndex, this`lastTimeBodyWasTracked, this`switchToBodyId
    {
      BodyTracker.TrackerState(trackedBodyId, trackedPlayerIndex, lastTimeBodyWasTracked, switchToBodyId)
    }

    /** The buffering fields as a value. */
    function Buffered(): Inbox
      reads this`faceTrackingData, this`skeletonData, this`interactionData, this`poseActionData,
            this`hasNewVideoContent, this`hasNewDepthContent, this`hasNewInfraRedContent
    {
      Inbox(faceTrackingData, skeletonData, interactionData, poseActionData,
                    hasNewVideoContent, hasNewDepthContent, hasNewInfraRedContent)
    }

    /** The data fields as a value. */
    function State(): ManagerState
      reads this`faceTrackingData, this`skeletonData, this`interactionData, this`poseActionData,
            this`hasNewVideoContent, this`hasNewDepthContent, this`hasNewInfraRedContent,
            this`trackedBodyId, this`trackedPlayerIndex, this`lastTimeBodyWasTracked, this`switchToBodyId,
            this`colorBuffer, this`depthBuffer, this`infraRedBuffer, colorBuffer, depthBuffer, infraRedBuffer,
            this`bodyData, this`commands, this`trackedUserChanges, this`deliveries
    {
      ManagerState(
        Buffered(),
        Tracker(),
        FrameBuffers(ColorView(colorBuffer), SamplesView(depthBuffer), SamplesView(infraRedBuffer)),
        bodyData, commands, trackedUserChanges, deliveries)
    }

    /**
     * The object invariant: the last TrackedUserChanged notification names the tracked body, and
     * the depth and infrared frames never share a buffer.
     */
    ghost predicate Valid()
      reads this`trackedBodyId, this`trackedUserChanges, this`depthBuffer, this`infraRedBuffer
    {
      && BodyTracker.Announced(trackedBodyId, trackedUserChanges)
      && (depthBuffer != null && infraRedBuffer != null ==> depthBuffer != infraRedBuffer)
    }

    constructor ()
      ensures Valid()
      ensures subscribers == NoSubscribers
      ensures !isStarted && !isEnabled && frame == 0
      ensures Buffered() == EmptyInbox
      ensures depthBuffer == null && infraRedBuffer == null && colorBuffer == null
      ensures Tracker() == BodyTracker.InitialState && bodyData == None
      ensures commands == [] && trackedUserChanges == [] && deliveries == []
    {
      subscribers := NoSubscribers;
      isStarted, isEnabled, frame := false, false, 0;
      hasNewVideoContent, hasNewDepthContent, hasNewInfraRedContent := false, false, false;
      faceTrackingData, skeletonData, interactionData, poseActionData := [], [], [], [];
      depthBuffer, infraRedBuffer, colorBuffer := null, null, null;
      trackedBodyId, trackedPlayerIndex := BodyTracker.NoTrackedBodyId, BodyTracker.NotTrackedIndex;
      lastTimeBodyWasTracked, switchToBodyId := 0.0, BodyTracker.NoTrackedBodyId;
      bodyData := None;
      commands, trackedUserChanges, deliveries := [], [], [];
    }

    // ---------------------------------------------------------------- tracked body

    predicate HasTrackedBody(): (r: bool)
      reads this`trackedBodyId, this`trackedUserChanges
      ensures r <==> BodyTracker.HasTrackedBody(Tracker())
      ensures Valid() ==>
        (r <==> trackedUserChanges != [] && trackedUserChanges[|trackedUserChanges| - 1] != BodyTracker.NoTrackedBodyId)
    {
      trackedBodyId != BodyTracker.NoTrackedBodyId
    }

    /** Delegates to the value-level rule BodyTracker.IsOverrideBody on the tracking fields. */
    predicate IsOverrideBody(body: BodyData)
      reads this`trackedBodyId, this`trackedPlayerIndex, this`lastTimeBodyWasTracked, this`switchToBodyId
    {
      BodyTracker.IsOverrideBody(Tracker(), body)
    }

    method SetTrackedBody(body: BodyData, now: real)
      requires Valid()
      modifies this`trackedBodyId, this`trackedPlayerIndex, this`lastTimeBodyWasTracked, this`bodyData,
               this`trackedUserChanges
      ensures Valid()
      ensures var t := BodyTracker.SetTrackedBody(old(Tracker()), body, now);
        Tracker() == t.state && trackedUserChanges == old(trackedUserChanges) + t.notified
      ensures bodyData == Some(body)
    {
      trackedBodyId := body.userId;
      trackedPlayerIndex := body.playerIndex;
      lastTimeBodyWasTracked := now;
      bodyData := Some(body);
      trackedUserChanges := trackedUserChanges + [trackedBodyId];
    }

    method SetNoTrackedBody()
      requires Valid()
      modifies this`trackedBodyId, this`trackedPlayerIndex, this`trackedUserChanges
      ensures Valid()
      ensures var t := BodyTracker.SetNoTrackedBody(old(Tracker()));
        Tracker() == t.state && trackedUserChanges == old(trackedUserChanges) + t.notified
    {
      trackedBodyId := BodyTracker.NoTrackedBodyId;
      trackedPlayerIndex := BodyTracker.NotTrackedIndex;
      trackedUserChanges := trackedUserChanges + [trackedBodyId];
    }

    method UpdateTrackedUserWith(body: BodyData, now: real)
      requires Valid()
      modifies this`trackedBodyId, this`trackedPlayerIndex, this`lastTimeBodyWasTracked, this`switchToBodyId,
               this`bodyData, this`trackedUserChanges
      ensures Valid()
      ensures var t := BodyTracker.UpdateTrackedUserWith(old(Tracker()), body, now);
        Tracker() == t.state && trackedUserChanges == old(trackedUserChanges) + t.notified
      ensures bodyData ==
        if BodyTracker.UpdateTrackedUserWith(old(Tracker()), body, now).notified != [] then Some(body) else old(bodyData)
    {
      if !HasTrackedBody() {
        if body.isTracked {
          SetTrackedBody(body, now);
        }
      } else if IsOverrideBody(body) {
        switchToBodyId := BodyTracker.NoTrackedBodyId;
        if body.isTracked {
          SetTrackedBody(body, now);
        }
      } else if trackedBodyId == body.userId {
        trackedPlayerIndex := body.playerIndex;
        if body.isTracked {
          lastTimeBodyWasTracked := now;
        }
      }
    }

    /** Decodes one skeleton report, applies it to the tracked body and records it in `bodyData`. */
    method ProcessSkeletonData(data: Content, now: real)
      requires Valid()
      modifies this`trackedBodyId, this`trackedPlayerIndex, this`lastTimeBodyWasTracked, this`switchToBodyId,
               this`bodyData, this`trackedUserChanges
      ensures Valid()
      ensures State() == SkeletonReportHandled(old(State()), data, now)
    {
      var body := data.body;
      UpdateTrackedUserWith(body, now);
      bodyData := Some(body);  // SkeletonDataReceived
      assert Buffered() == old(Buffered());
    }

    method OverrideTrackingId(trackingId: ulong)
      modifies this`commands
      ensures commands == old(commands) + [HandTrackingBodyChange(trackingId)]
    {
      commands := commands + [HandTrackingBodyChange(trackingId)];
    }

    method ChangeKinectDataTransmitterMode(mode: KinectDeviceMode)
      modifies this`commands
      ensures commands == old(commands) + [DeviceModeChange(mode)]
    {
      commands := commands + [DeviceModeChange(mode)];
    }

    method ProcessPoseActionData(data: Content)
      modifies this`switchToBodyId, this`commands
      ensures State() == PoseActionHandled(old(State()), data)
    {
      var e := data.pose;
      match e.poseType
      case Swith =>
        switchToBodyId := e.bodyId;
        OverrideTrackingId(e.bodyId);
      case LassoLeft =>
        ChangeKinectDataTransmitterMode(BodyInteractionDepth);
      case LassoReight =>
        ChangeKinectDataTransmitterMode(InteractionDepth);
    }

    // ---------------------------------------------------------------- receive side

    /**
     * The receive callback: while enabled, the line takes the first branch of the chain whose
     * predicate accepts it; a ping is answered at once when the transmitter is still running.
     */
    method ParseReceivedData(data: Line, processRunning: bool)
      modifies this`faceTrackingData, this`skeletonData, this`interactionData, this`poseActionData,
               this`hasNewVideoContent, this`hasNewDepthContent, this`hasNewInfraRedContent, this`commands
      ensures !isEnabled ==> unchanged(this)
      ensures isEnabled ==> Buffered() == Receive(old(Buffered()), Classify(data.categories), data)
      ensures commands == old(commands) +
        (if isEnabled && processRunning && Classify(data.categories) == Some(PingMessage)
         then [PingReply] else [])
    {
      if !isEnabled {
        return;
      }
      match Classify(data.categories)
      case Some(FaceTrackingData) =>
        faceTrackingData := faceTrackingData + [data];
      case Some(SkeletonData) =>
        skeletonData := skeletonData + [data];
      case Some(VideoFrameData) =>
        hasNewVideoContent := true;
      case Some(DepthFrameData) =>
        hasNewDepthContent := true;
      case Some(InfraRedFrameData) =>
        hasNewInfraRedContent := true;
      case Some(PingMessage) =>
        if processRunning {
          commands := commands + [PingReply];
        }
      case Some(InteractionData) =>
        interactionData := interactionData + [data];
      case Some(PoseActionData) =>
        poseActionData := poseActionData + [data];
      case _ =>
    }

    // ---------------------------------------------------------------- frames

    /**
     * Decodes a colour frame into `colorBuffer` (reused when its length is a quarter of the byte
     * count) and raises VideoFrameDataReceived; nothing happens for a null frame or no subscriber.
     */
    method ProcessVideoFrame(bytes: Option<seq<byte>>)
      modifies this`colorBuffer, this`deliveries, colorBuffer
      ensures State() == VideoFrameProcessed(old(State()), subscribers, bytes)
      ensures bytes.None? || !subscribers.videoFrame ==> colorBuffer == old(colorBuffer)
      ensures bytes.Some? && old(colorBuffer) != null && old(colorBuffer).Length == |bytes.value| / 4 ==>
        colorBuffer == old(colorBuffer)
      ensures colorBuffer != old(colorBuffer) ==> fresh(colorBuffer)
    {
      if bytes.None? || !subscribers.videoFrame {
        return;
      }
      var frame := bytes.value;
      var buffer := colorBuffer;
      if buffer == null || buffer.Length != |frame| / 4 {
        buffer := new Color32[|frame| / 4];
        colorBuffer := buffer;
      }
      for i := 0 to buffer.Length
        invariant colorBuffer == buffer && deliveries == old(deliveries)
        invariant forall k :: 0 <= k < i ==>
          buffer[k] == Color32(frame[4 * k + 2], frame[4 * k + 1], frame[4 * k], ByteMaxValue)
      {
        var byteIndex := i * 4;
        buffer[i] := Color32(frame[byteIndex + 2], frame[byteIndex + 1], frame[byteIndex], ByteMaxValue);
      }
      ColorPixelsLength(frame);
      forall k | 0 <= k < buffer.Length
        ensures buffer[..][k] == ColorPixels(frame)[k]
      {
        ColorPixelsAt(frame, k);
      }
      assert buffer[..] == ColorPixels(frame);
      deliveries := deliveries + [VideoFrameDataReceived(buffer[..])];
    }

    /**
     * Decodes a depth frame into `depthBuffer` and raises DepthFrameDataReceived with it; a null
     * frame still raises the event, with the buffer as it was.
     */
    method ProcessDepthFrame(bytes: Option<seq<byte>>)
      requires Valid()
      modifies this`depthBuffer, this`deliveries, depthBuffer
      ensures Valid()
      ensures State() == DepthFrameProcessed(old(State()), subscribers, bytes)
      ensures !subscribers.depthFrame ==> depthBuffer == old(depthBuffer)
      ensures bytes.None? || (old(depthBuffer) != null && old(depthBuffer).Length == |bytes.value| / 2) ==>
        depthBuffer == old(depthBuffer)
      ensures depthBuffer != old(depthBuffer) ==> fresh(depthBuffer)
    {
      if !subscribers.depthFrame {
        return;
      }
      depthBuffer := Process16bitsFrame(bytes, depthBuffer);
      deliveries := deliveries + [DepthFrameDataReceived(SamplesView(depthBuffer))];
    }

    /** As ProcessDepthFrame, for infrared frames and `infraRedBuffer`. */
    method ProcessInfraRedFrame(bytes: Option<seq<byte>>)
      requires Valid()
      modifies this`infraRedBuffer, this`deliveries, infraRedBuffer
      ensures Valid()
      ensures State() == InfraRedFrameProcessed(old(State()), subscribers, bytes)
      ensures !subscribers.infraRedFrame ==> infraRedBuffer == old(infraRedBuffer)
      ensures bytes.None? || (old(infraRedBuffer) != null && old(infraRedBuffer).Length == |bytes.value| / 2) ==>
        infraRedBuffer == old(infraRedBuffer)
      ensures infraRedBuffer != old(infraRedBuffer) ==> fresh(infraRedBuffer)
    {
      if !subscribers.infraRedFrame {
        return;
      }
      infraRedBuffer := Process16bitsFrame(bytes, infraRedBuffer);
      deliveries := deliveries + [InfraRedFrameDataReceived(SamplesView(infraRedBuffer))];
    }

    /** The video branch of the new-frame block of Update; `video` is what GetVideoStreamData returns. */
    method ProcessNewVideoContent(video: Option<seq<byte>>)
      modifies this`hasNewVideoContent, this`colorBuffer, this`deliveries, colorBuffer
      ensures State() == VideoContentProcessed(old(State()), subscribers, video)
      ensures colorBuffer != old(colorBuffer) ==> fresh(colorBuffer)
    {
      if hasNewVideoContent {
        if subscribers.videoFrame {
          ProcessVideoFrame(video);
        }
        hasNewVideoContent := false;
      }
    }

    /** The depth branch of the new-frame block of Update. */
    method ProcessNewDepthContent(depth: Option<seq<byte>>)
      requires Valid()
      modifies this`hasNewDepthContent, this`depthBuffer, this`deliveries, depthBuffer
      ensures Valid()
      ensures State() == DepthContentProcessed(old(State()), subscribers, depth)
    {
      if hasNewDepthContent {
        if subscribers.depthFrame {
          ProcessDepthFrame(depth);
        }
        hasNewDepthContent := false;
      }
    }

    /** The infrared branch of the new-frame block of Update. */
    method ProcessNewInfraRedContent(infraRed: Option<seq<byte>>)
      requires Valid()
      modifies this`hasNewDepthContent, this`infraRedBuffer, this`deliveries, infraRedBuffer
      ensures Valid()
      ensures State() == InfraRedContentProcessed(old(State()), subscribers, infraRed)
    {
      if hasNewInfraRedContent {
        if subscribers.infraRedFrame {
          ProcessInfraRedFrame(infraRed);
        }
        hasNewDepthContent := false;
      }
    }

    /** The new-frame block of Update: the video, depth and infrared branches in turn. */
    method ProcessNewFrames(streams: StreamData)
      requires Valid()
      modifies this`hasNewVideoContent, this`hasNewDepthContent, this`colorBuffer, this`depthBuffer,
               this`infraRedBuffer, this`deliveries, colorBuffer, depthBuffer, infraRedBuffer
      ensures Valid()
      ensures State() == FramesProcessed(old(State()), subscribers, streams)
    {
      ProcessNewVideoContent(streams.video);
      ProcessNewDepthContent(streams.depth);
      ProcessNewInfraRedContent(streams.infraRed);
    }

    // ---------------------------------------------------------------- draining the queues

    method ProcessFaceTrackingData(data: Content)
      modifies this`deliveries
      ensures deliveries == old(deliveries) + (if subscribers.faceTracking then [FaceTrackingDataReceived(data.text)] else [])
    {
      if !subscribers.faceTracking {
        return;
      }
      deliveries := deliveries + [FaceTrackingDataReceived(data.text)];
    }

    method ProcessInteractionData(data: Content)
      modifies this`deliveries
      ensures deliveries == old(deliveries) + (if subscribers.interaction then [InteractionDataReceived(data.text)] else [])
    {
      if !subscribers.interaction {
        return;
      }
      deliveries := deliveries + [InteractionDataReceived(data.text)];
    }

    /** Swaps the face-tracking queue for an empty one and processes the old one in order. */
    method DrainFaceTrackingData()
      modifies this`faceTrackingData, this`deliveries
      ensures State() == FaceTrackingDrained(old(State()), subscribers)
    {
      var dataList := faceTrackingData;
      faceTrackingData := [];
      for i := 0 to |dataList|
        invariant faceTrackingData == []
        invariant deliveries == old(deliveries) +
          (if subscribers.faceTracking then FaceDeliveries(dataList[..i]) else [])
      {
        FaceDeliveriesStep(dataList, i);
        ProcessFaceTrackingData(dataList[i].content);
      }
      assert dataList[..|dataList|] == dataList;
    }

    /** Swaps the interaction queue for an empty one and processes the old one in order. */
    method DrainInteractionData()
      modifies this`interactionData, this`deliveries
      ensures State() == InteractionDrained(old(State()), subscribers)
    {
      var dataList := interactionData;
      interactionData := [];
      for i := 0 to |dataList|
        invariant interactionData == []
        invariant deliveries == old(deliveries) +
          (if subscribers.interaction then InteractionDeliveries(dataList[..i]) else [])
      {
        InteractionDeliveriesStep(dataList, i);
        ProcessInteractionData(dataList[i].content);
      }
      assert dataList[..|dataList|] == dataList;
    }

    /** Swaps the skeleton queue for an empty one and applies its reports in order. */
    method DrainSkeletonData(now: real)
      requires Valid()
      modifies this`skeletonData, this`trackedBodyId, this`trackedPlayerIndex, this`lastTimeBodyWasTracked,
               this`switchToBodyId, this`bodyData, this`trackedUserChanges
      ensures Valid()
      ensures State() == SkeletonDrained(old(State()), now)
    {
      var dataList := skeletonData;
      skeletonData := [];
      ghost var start := State();
      for i := 0 to |dataList|
        invariant Valid()
        invariant State() == SkeletonReportsHandled(start, dataList[..i], now)
      {
        SkeletonReportsHandledStep(start, dataList, i, now);
        ProcessSkeletonData(dataList[i].content, now);
      }
      assert dataList[..|dataList|] == dataList;
    }

    /** Swaps the pose-action queue for an empty one and handles its poses in order. */
    method DrainPoseActionData()
      modifies this`poseActionData, this`switchToBodyId, this`commands
      ensures State() == PoseActionsDrained(old(State()))
    {
      var dataList := poseActionData;
      poseActionData := [];
      ghost var start := State();
      for i := 0 to |dataList|
        invariant State() == PoseActionsHandled(start, dataList[..i])
      {
        PoseActionsHandledStep(start, dataList, i);
        ProcessPoseActionData(dataList[i].content);
      }
      assert dataList[..|dataList|] == dataList;
    }

    /** The timeout test at the end of Update. */
    method CheckTrackedUserTimeout(now: real)
      requires Valid()
      modifies this`trackedBodyId, this`trackedPlayerIndex, this`trackedUserChanges
      ensures Valid()
      ensures State() == TimedOut(old(State()), now)
    {
      if HasTrackedBody() && lastTimeBodyWasTracked + BodyTracker.TimeToTimeoutTrackedUser < now {
        SetNoTrackedBody();
      }
    }

    /** The face-tracking and skeleton blocks of Update, in that order. */
    method DrainTrackingQueues(now: real)
      requires Valid()
      modifies this`faceTrackingData, this`skeletonData, this`trackedBodyId, this`trackedPlayerIndex,
               this`lastTimeBodyWasTracked, this`switchToBodyId, this`bodyData, this`trackedUserChanges,
               this`deliveries
      ensures Valid()
      ensures State() == SkeletonDrained(FaceTrackingDrained(old(State()), subscribers), now)
    {
      DrainFaceTrackingData();
      DrainSkeletonData(now);
    }

    /** The interaction and pose-action blocks of Update, in that order. */
    method DrainInteractionQueues()
      modifies this`interactionData, this`poseActionData, this`switchToBodyId, this`commands, this`deliveries
      ensures State() == PoseActionsDrained(InteractionDrained(old(State()), subscribers))
    {
      DrainInteractionData();
      DrainPoseActionData();
    }

    /** The four queue blocks of Update in source order. */
    method DrainQueues(now: real)
      requires Valid()
      modifies this`faceTrackingData, this`skeletonData, this`interactionData, this`poseActionData,
               this`trackedBodyId, this`trackedPlayerIndex, this`lastTimeBodyWasTracked, this`switchToBodyId,
               this`bodyData, this`trackedUserChanges, this`commands, this`deliveries
      ensures Valid()
      ensures State() == PoseActionsDrained(InteractionDrained(
        SkeletonDrained(FaceTrackingDrained(old(State()), subscribers), now), subscribers))
    {
      DrainTrackingQueues(now);
      DrainInteractionQueues();
    }

    /** The queue blocks of Update, then the timeout test. */
    method ProcessQueues(now: real)
      requires Valid()
      modifies this`faceTrackingData, this`skeletonData, this`interactionData, this`poseActionData,
               this`trackedBodyId, this`trackedPlayerIndex, this`lastTimeBodyWasTracked, this`switchToBodyId,
               this`bodyData, this`trackedUserChanges, this`commands, this`deliveries
      ensures Valid()
      ensures State() == QueuesProcessed(old(State()), subscribers, now)
    {
      DrainQueues(now);
      CheckTrackedUserTimeout(now);
    }

    // ---------------------------------------------------------------- the tick

    /**
     * Update, once per tick at time `now`; `streams` is what the converter's stream accessors
     * return when called. Nothing but the frame counter changes unless the manager is started and
     * enabled.
     */
    method Update(now: real, streams: StreamData)
      requires Valid()
      modifies this`frame, this`hasNewVideoContent, this`hasNewDepthContent, this`colorBuffer, this`depthBuffer,
               this`infraRedBuffer, colorBuffer, depthBuffer, infraRedBuffer,
               this`faceTrackingData, this`skeletonData, this`interactionData, this`poseActionData,
               this`trackedBodyId, this`trackedPlayerIndex, this`lastTimeBodyWasTracked, this`switchToBodyId,
               this`bodyData, this`trackedUserChanges, this`commands, this`deliveries
      ensures Valid()
      ensures frame == old(frame) + 1
      ensures State() == if old(isStarted && isEnabled) then Ticked(old(State()), subscribers, now, streams)
                         else old(State())
    {
      frame := frame + 1;
      if isStarted && isEnabled {
        Tick(now, streams);
      }
    }

    /** The body of Update past its guards: the new-frame block, then the queue blocks. */
    method Tick(now: real, streams: StreamData)
      requires Valid()
      modifies this`hasNewVideoContent, this`hasNewDepthContent, this`colorBuffer, this`depthBuffer,
               this`infraRedBuffer, colorBuffer, depthBuffer, infraRedBuffer,
               this`faceTrackingData, this`skeletonData, this`interactionData, this`poseActionData,
               this`trackedBodyId, this`trackedPlayerIndex, this`lastTimeBodyWasTracked, this`switchToBodyId,
               this`bodyData, this`trackedUserChanges, this`commands, this`deliveries
      ensures Valid()
      ensures State() == Ticked(old(State()), subscribers, now, streams)
    {
      ProcessNewFrames(streams);
      ProcessQueues(now);
    }

    // ---------------------------------------------------------------- lifecycle

    /**
     * The bookkeeping of BootProcess; `launched` is whether the transmitter could be started. On
     * success the queues are replaced by empty ones, the byte-order-mark line is sent, and the
     * manager is started and enabled.
     */
    method BootProcess(launched: bool)
      modifies this`isStarted, this`isEnabled, this`faceTrackingData, this`skeletonData,
               this`interactionData, this`poseActionData, this`commands
      ensures old(isStarted) || !launched ==> unchanged(this)
      ensures !old(isStarted) && launched ==>
        && isStarted && isEnabled
        && Buffered() == old(Buffered()).(faceTrackingData := [], skeletonData := [], interactionData := [], poseActionData := [])
        && commands == old(commands) + [ByteOrderMarkReset]
    {
      if isStarted {
        return;
      }
      if !launched {
        isStarted := false;
        return;
      }
      faceTrackingData, skeletonData, interactionData, poseActionData := [], [], [], [];
      commands := commands + [ByteOrderMarkReset];
      isStarted := true;
      Enable();
    }

    /** The bookkeeping of ShutdownKinect: the manager is no longer started. */
    method ShutdownKinect()
      modifies this`isStarted
      ensures !isStarted
    {
      isStarted := false;
    }

    method Enable()
      modifies this`isEnabled
      ensures isEnabled
    {
      if isEnabled {
        return;
      }
      isEnabled := true;
    }

    /** Disabling drops the tracked body (always notifying) and clears the buffered data. */
    method Disable()
      requires Valid()
      modifies this`isEnabled, this`trackedBodyId, this`trackedPlayerIndex, this`trackedUserChanges,
               this`faceTrackingData, this`skeletonData, this`interactionData, this`poseActionData,
               this`hasNewVideoContent, this`hasNewDepthContent
      ensures Valid()
      ensures !isEnabled
      ensures !old(isEnabled) ==> unchanged(this)
      ensures old(isEnabled) ==>
        var t := BodyTracker.SetNoTrackedBody(old(Tracker()));
        && Tracker() == t.state && trackedUserChanges == old(trackedUserChanges) + t.notified
        && Buffered() == Cleared(old(Buffered()))
    {
      if !isEnabled {
        return;
      }
      isEnabled := false;
      SetNoTrackedBody();
      ClearData();
    }

    method ClearData()
      modifies this`faceTrackingData, this`skeletonData, this`interactionData, this`poseActionData,
               this`hasNewVideoContent, this`hasNewDepthContent
      ensures Buffered() == Cleared(old(Buffered()))
    {
      faceTrackingData, skeletonData, interactionData, poseActionData := [], [], [], [];
      hasNewDepthContent := false;
      hasNewVideoContent := false;
    }
  }
}
