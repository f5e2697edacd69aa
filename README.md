# Kinect2Manager in Dafny

This project models `Kinect2Manager`, the Unity component that bridges a Kinect 2 sensor and a game.
The sensor is driven by a separate data-transmitter process. That process writes one line per message to
the manager. The manager does three things, and the model covers all three:

- **Receive side.** `ParseReceivedData` runs for every line. It classifies the line with the converter's
  `Is*` predicates, taking the first matching branch of an if/else chain. It appends face-tracking,
  skeleton, interaction and pose-action lines to four queues. It raises a "new frame" flag for video,
  depth and infrared frames. It answers pings.
- **Tick side.** `Update` runs once per frame. It fetches and decodes the announced frames into reused
  buffers: 16-bit little-endian samples for depth and infrared, and BGRX to RGBA pixels for video. It
  swaps each queue for an empty one and handles the old contents in arrival order. It then drops a
  tracked body whose last tracked report is more than 0.5 time units old.
- **Tracked-body selection.** One body is followed at a time. The rules are: acquire a body when none is
  tracked; complete an override that a "Swith" pose requested; refresh the tracked body; ignore every
  other report. Every change raises `TrackedUserChanged`.

Layout:

- `wrappers.dfy` (module `Wrappers`): `Option`.
- `data_converter.dfy` (module `DataConverter`): the converter types the manager uses. A `Line` carries
  what the converter's pure functions compute from it: the set of categories whose `Is*` predicate
  accepts it, and its decoded content.
- `frame_decoder.dfy` (module `FrameDecoder`): the specification functions `Samples16` and `ColorPixels`,
  their inverse encodings with round-trip lemmas, and the in-place decoder `Process16bitsFrame`.
- `body_tracker.dfy` (module `BodyTracker`): the tracking rules as transitions on a `TrackerState` value.
  Each transition records the notifications it raises. Lemmas cover each rule and the override protocol
  end to end.
- `kinect2_manager.dfy` (module `Kinect2`): the class `Kinect2Manager`, with the source's fields.
  - The tick-side methods (the frame processors, the drains, the timeout test, `Tick` and `Update`) are
    proved against value-level step functions on `ManagerState`, a snapshot of all data fields:
    `ensures State() == SkeletonDrained(old(State()), now)`. The tracking, receive and lifecycle
    methods state their contracts on the views `Tracker()` and `Buffered()` and on single fields.
  - `Update` is proved to perform `Ticked`, the composition of the source's blocks in source order.
  - The frame buffers are arrays that the decoders overwrite in place. `State()` reads their contents,
    and each decoder states whether it reused the array or allocated a fresh one.
  - The object invariant `Valid()` says that the last `TrackedUserChanged` notification names the
    tracked body, and that the depth and infrared buffers are distinct arrays.
- `tick_properties.dfy` (module `TickProperties`): what one `Update` does overall, stated on those step
  functions:
  - the effect of the queue blocks and of the frame blocks;
  - the tracked id always matches the last notification;
  - a received face-tracking line reaches its subscriber in the next `Update`, and a received skeleton
    line is kept in `bodyData`;
  - an idle `Update` changes nothing;
  - a consequence of the infrared-flag quirk.

Effects that leave the manager are recorded as logs on the object:

- `commands`: the lines written to the transmitter's standard input.
- `trackedUserChanges`: the id announced by every `SetTrackedBody` and `SetNoTrackedBody` call, that is,
  every `TrackedUserChanged` the manager raises when that event has a subscriber.
- `deliveries`: every invocation of the frame, face-tracking and interaction events, with the data passed.

Whether an event has a subscriber is the `subscribers` field, because the source tests the delegates for
null and skips work when there is none. Time is a `real` parameter (`now`) in place of Unity's
`Time.time`.

Three behaviours of the code that are easy to miss, all kept as written:

- A line may satisfy several `Is*` predicates; the first branch of the chain wins (`Kinect2.Classify`).
- `ClearData` keeps the infrared flag.
- The infrared branch of `Update` lowers the depth flag, never its own;
  `TickProperties.InfraRedFrameRepeats` states its consequence.

## Model

| member | source | states |
|---|---|---|
| Kinect2.RankIsChainPosition | Assets/Scripts/Kinect2/Kinect2Manager.cs:187-258 | The chain order is a bijection between the twelve categories and the positions 0..11 |
| Kinect2.Classify | Assets/Scripts/Kinect2/Kinect2Manager.cs:187-258 | The branch taken is a category the line's predicates accept and the earliest such in the chain; the unknown-message branch is taken exactly when no predicate accepts it |
| Kinect2.Receive | Assets/Scripts/Kinect2/Kinect2Manager.cs:187-254 | A queued category appends the whole line to its own queue; every other queue is unchanged; a frame category raises exactly its own flag; the queued total grows by one exactly for queued categories |
| Kinect2.Cleared | Assets/Scripts/Kinect2/Kinect2Manager.cs:592-600 | ClearData empties all four queues and lowers the video and depth flags but keeps the infrared flag |
| Kinect2.Kinect2Manager.constructor | Assets/Scripts/Kinect2/Kinect2Manager.cs:105-111 | A new manager is stopped and disabled, has nothing buffered, null buffers, no tracked body (id 0, index -1) and empty logs |
| Kinect2.Kinect2Manager.HasTrackedBody | Assets/Scripts/Kinect2/Kinect2Manager.cs:510-513 | A body is tracked exactly when the tracked id is not 0, and then the last TrackedUserChanged notification named a body |
| Kinect2.Kinect2Manager.SetTrackedBody | Assets/Scripts/Kinect2/Kinect2Manager.cs:83-93 | Takes id, player index and time from the report, keeps the report in bodyData, and notifies once with the new id |
| Kinect2.Kinect2Manager.SetNoTrackedBody | Assets/Scripts/Kinect2/Kinect2Manager.cs:95-103 | Resets to id 0 and index -1 and notifies with id 0, even when nothing was tracked |
| Kinect2.Kinect2Manager.UpdateTrackedUserWith | Assets/Scripts/Kinect2/Kinect2Manager.cs:476-508 | The tracking fields and notifications are exactly those of the BodyTracker rule for the report; bodyData takes the report exactly when the rule adopts the body (a notification is raised) and is kept otherwise |
| Kinect2.Kinect2Manager.ProcessSkeletonData | Assets/Scripts/Kinect2/Kinect2Manager.cs:449-474 | The report is applied to the tracked body and then stored in bodyData; nothing else changes |
| Kinect2.Kinect2Manager.OverrideTrackingId | Assets/Scripts/Kinect2/Kinect2Manager.cs:561-564 | Sends exactly one hand-tracking body change command for the id |
| Kinect2.Kinect2Manager.ChangeKinectDataTransmitterMode | Assets/Scripts/Kinect2/Kinect2Manager.cs:566-569 | Sends exactly one device-mode command for the mode |
| Kinect2.Kinect2Manager.ProcessPoseActionData | Assets/Scripts/Kinect2/Kinect2Manager.cs:529-552 | The pending override id and the command log change exactly as the BodyTracker pose rule says; nothing else changes |
| Kinect2.Kinect2Manager.ParseReceivedData | Assets/Scripts/Kinect2/Kinect2Manager.cs:180-259 | A disabled manager changes nothing; otherwise the buffered state becomes Receive of the branch Classify picks, and a ping is answered exactly when the transmitter is still running |
| Kinect2.Kinect2Manager.ProcessVideoFrame | Assets/Scripts/Kinect2/Kinect2Manager.cs:411-430 | With a subscriber and a frame, the colour buffer holds ColorPixels of the bytes and is handed to the event; it is the same array when its length was already a quarter of the byte count, and a fresh one otherwise; a null frame or no subscriber changes nothing, and the same array stays in place |
| Kinect2.Kinect2Manager.ProcessDepthFrame | Assets/Scripts/Kinect2/Kinect2Manager.cs:372-380 | With a subscriber, the depth buffer holds Samples16 of the frame (unchanged, same array, for a null frame) and the event receives it; the array is kept when its length already matched; with no subscriber nothing changes, the array included |
| Kinect2.Kinect2Manager.ProcessInfraRedFrame | Assets/Scripts/Kinect2/Kinect2Manager.cs:381-389 | The same for the infrared buffer, including that nothing changes without a subscriber; the depth and infrared buffers stay distinct arrays |
| Kinect2.Kinect2Manager.ProcessNewVideoContent | Assets/Scripts/Kinect2/Kinect2Manager.cs:283-290 | When the video flag is raised, the frame is processed if there is a subscriber and the flag is lowered |
| Kinect2.Kinect2Manager.ProcessNewDepthContent | Assets/Scripts/Kinect2/Kinect2Manager.cs:292-299 | When the depth flag is raised, the frame is processed if there is a subscriber and the flag is lowered |
| Kinect2.Kinect2Manager.ProcessNewInfraRedContent | Assets/Scripts/Kinect2/Kinect2Manager.cs:301-308 | When the infrared flag is raised, the frame is processed if there is a subscriber and the depth flag, not the infrared one, is lowered |
| Kinect2.Kinect2Manager.ProcessNewFrames | Assets/Scripts/Kinect2/Kinect2Manager.cs:283-308 | The three frame branches run in the order video, depth, infrared |
| Kinect2.Kinect2Manager.ProcessFaceTrackingData | Assets/Scripts/Kinect2/Kinect2Manager.cs:433-446 | Raises FaceTrackingDataReceived with the line's content exactly when there is a subscriber |
| Kinect2.Kinect2Manager.ProcessInteractionData | Assets/Scripts/Kinect2/Kinect2Manager.cs:515-527 | Raises InteractionDataReceived with the line's content exactly when there is a subscriber |
| Kinect2.Kinect2Manager.DrainFaceTrackingData | Assets/Scripts/Kinect2/Kinect2Manager.cs:310-322 | The queue ends empty and its lines reach the subscriber in arrival order |
| Kinect2.Kinect2Manager.DrainSkeletonData | Assets/Scripts/Kinect2/Kinect2Manager.cs:324-336 | The queue ends empty and its reports are handled one by one in arrival order |
| Kinect2.Kinect2Manager.DrainInteractionData | Assets/Scripts/Kinect2/Kinect2Manager.cs:338-349 | The queue ends empty and its lines reach the subscriber in arrival order |
| Kinect2.Kinect2Manager.DrainPoseActionData | Assets/Scripts/Kinect2/Kinect2Manager.cs:351-362 | The queue ends empty and its poses are handled one by one in arrival order |
| Kinect2.Kinect2Manager.CheckTrackedUserTimeout | Assets/Scripts/Kinect2/Kinect2Manager.cs:364-368 | The tracking fields and notifications change exactly as the BodyTracker timeout rule says |
| Kinect2.Kinect2Manager.DrainTrackingQueues | Assets/Scripts/Kinect2/Kinect2Manager.cs:310-336 | The face-tracking block, then the skeleton block |
| Kinect2.Kinect2Manager.DrainInteractionQueues | Assets/Scripts/Kinect2/Kinect2Manager.cs:338-362 | The interaction block, then the pose-action block |
| Kinect2.Kinect2Manager.DrainQueues | Assets/Scripts/Kinect2/Kinect2Manager.cs:310-362 | The four queue blocks in source order |
| Kinect2.Kinect2Manager.ProcessQueues | Assets/Scripts/Kinect2/Kinect2Manager.cs:310-368 | The four queue blocks, then the timeout test |
| Kinect2.Kinect2Manager.Tick | Assets/Scripts/Kinect2/Kinect2Manager.cs:283-368 | The frame blocks, then the queue blocks and the timeout test; the object invariant is kept |
| Kinect2.Kinect2Manager.Update | Assets/Scripts/Kinect2/Kinect2Manager.cs:262-371 | The frame counter grows by one; a manager that is not both started and enabled changes nothing else; otherwise the data fields undergo one Ticked step; the tracked id keeps matching the last notification |
| Kinect2.Kinect2Manager.BootProcess | Assets/Scripts/Kinect2/Kinect2Manager.cs:133-177 | A started manager or a failed launch changes nothing; otherwise the queues are replaced by empty ones, the byte-order-mark line is sent, and the manager is started and enabled |
| Kinect2.Kinect2Manager.ShutdownKinect | Assets/Scripts/Kinect2/Kinect2Manager.cs:602-604 | The manager is no longer started |
| Kinect2.Kinect2Manager.Enable | Assets/Scripts/Kinect2/Kinect2Manager.cs:571-579 | The manager is enabled afterwards and nothing else changes, so a second call has no effect |
| Kinect2.Kinect2Manager.Disable | Assets/Scripts/Kinect2/Kinect2Manager.cs:581-591 | A disabled manager is unchanged; otherwise it becomes disabled, drops the tracked body with one notification (even if none was tracked) and clears the buffered data as Cleared says |
| Kinect2.Kinect2Manager.ClearData | Assets/Scripts/Kinect2/Kinect2Manager.cs:592-600 | The buffered data becomes Cleared of what it was |
| FrameDecoder.ToUInt16 | Assets/Scripts/Kinect2/Kinect2Manager.cs:405 | The first byte is the low byte and the second the high byte of the sample |
| FrameDecoder.Samples16Length | Assets/Scripts/Kinect2/Kinect2Manager.cs:398-400 | A frame of n bytes has n/2 samples (integer division) |
| FrameDecoder.Samples16At | Assets/Scripts/Kinect2/Kinect2Manager.cs:402-406 | Sample i is the little-endian value of bytes 2i and 2i+1 |
| FrameDecoder.Samples16OfBytes16 | Assets/Scripts/Kinect2/Kinect2Manager.cs:402-406 | Decoding the little-endian encoding of any samples gives them back |
| FrameDecoder.Bytes16OfSamples16 | Assets/Scripts/Kinect2/Kinect2Manager.cs:402-406 | A frame of even length is exactly the encoding of its samples |
| FrameDecoder.Process16bitsFrame | Assets/Scripts/Kinect2/Kinect2Manager.cs:391-407 | A null frame leaves the reference and the contents alone; otherwise the result holds Samples16 of the bytes, is the given array when its length already matched, and is fresh otherwise |
| FrameDecoder.ColorPixelsLength | Assets/Scripts/Kinect2/Kinect2Manager.cs:418-421 | A frame of n bytes has n/4 pixels |
| FrameDecoder.ColorPixelsAt | Assets/Scripts/Kinect2/Kinect2Manager.cs:423-427 | Pixel i is (bytes[4i+2], bytes[4i+1], bytes[4i], 255) |
| FrameDecoder.ColorPixelsIgnoreFourthByte | Assets/Scripts/Kinect2/Kinect2Manager.cs:426 | Frames that differ only in the fourth byte of each group decode alike |
| FrameDecoder.ColorPixelsOfBgraBytes | Assets/Scripts/Kinect2/Kinect2Manager.cs:423-427 | Decoding the BGRA encoding of opaque pixels gives them back |
| BodyTracker.IsOverrideBody | Assets/Scripts/Kinect2/Kinect2Manager.cs:636-639 | A report completes an override only if it names the pending id and that id is not the tracked one |
| BodyTracker.UpdateTrackedUserWith | Assets/Scripts/Kinect2/Kinect2Manager.cs:476-508 | At most one notification, carrying the new id, raised whenever the tracked id changes; the new id is the old one or the report's; an untracked report never changes the id or the time and never notifies; while a body is tracked, a report about a body neither tracked nor pending changes nothing |
| BodyTracker.AcquireRule | Assets/Scripts/Kinect2/Kinect2Manager.cs:478-484 | With nothing tracked, a tracked report sets id, index and time from the report with exactly one notification; an untracked report changes nothing |
| BodyTracker.OverrideRule | Assets/Scripts/Kinect2/Kinect2Manager.cs:485-493 | While a body is tracked and a different id is pending, a report for the pending id clears it to 0 and, when tracked, switches to that body with one notification |
| BodyTracker.SameBodyRule | Assets/Scripts/Kinect2/Kinect2Manager.cs:494-502 | A report for the tracked body updates only its player index, and its time when tracked, without notification |
| BodyTracker.CheckTimeout | Assets/Scripts/Kinect2/Kinect2Manager.cs:364-368 | A tracked body is dropped to id 0 and index -1 with one notification exactly when its time is strictly more than 0.5 old; otherwise nothing changes; afterwards no tracked body is stale |
| BodyTracker.ProcessPoseActionData | Assets/Scripts/Kinect2/Kinect2Manager.cs:529-552 | Swith sets the pending id to the posing body and sends one override command for it; LassoLeft and LassoReight send the Body/Interaction/Depth and Interaction/Depth mode commands and change no state |
| BodyTracker.ApplyReportsKeepsAnnounced | Assets/Scripts/Kinect2/Kinect2Manager.cs:476-508 | Any run of reports keeps the last notification equal to the tracked id |
| BodyTracker.CheckTimeoutKeepsAnnounced | Assets/Scripts/Kinect2/Kinect2Manager.cs:364-368 | The timeout step keeps the last notification equal to the tracked id |
| BodyTracker.UntrackedReportsKeepTrackedBody | Assets/Scripts/Kinect2/Kinect2Manager.cs:476-508 | Any run of untracked reports keeps the tracked id and raises no notification |
| BodyTracker.IgnoredReportsChangeNothing | Assets/Scripts/Kinect2/Kinect2Manager.cs:503-507 | While a body is tracked, any run of reports about bodies neither tracked nor pending changes nothing |
| BodyTracker.OverrideCompletes | Assets/Scripts/Kinect2/Kinect2Manager.cs:485-493 | A Swith pose by another body, then reports about unrelated bodies, then a tracked report by the posing body, switches tracking to it with exactly one command and one notification and clears the pending id |
| BodyTracker.PoseActionsTouchOnlyPendingId | Assets/Scripts/Kinect2/Kinect2Manager.cs:529-552 | Any run of pose actions changes no tracking field but the pending id and sends one command per pose |
| TickProperties.SkeletonReportsHandledEffect | Assets/Scripts/Kinect2/Kinect2Manager.cs:332-335 | A run of skeleton lines drives the tracker as the reports applied in order, keeps the last report in bodyData and touches nothing else |
| TickProperties.PoseActionsHandledEffect | Assets/Scripts/Kinect2/Kinect2Manager.cs:358-361 | A run of pose-action lines does what the poses applied in order do and touches nothing else |
| TickProperties.QueuesProcessedEffect | Assets/Scripts/Kinect2/Kinect2Manager.cs:310-368 | After the queue blocks every queue is empty; the face-tracking and then the interaction contents are delivered in arrival order; the tracker is the skeleton reports, then the poses, then the timeout applied in order; the flags and buffers are kept |
| TickProperties.VideoContentEffect | Assets/Scripts/Kinect2/Kinect2Manager.cs:283-290 | The video block lowers its flag and changes only the colour buffer and at most one delivery |
| TickProperties.DepthContentEffect | Assets/Scripts/Kinect2/Kinect2Manager.cs:292-299 | The depth block lowers its flag and changes only the depth buffer and at most one delivery |
| TickProperties.InfraRedContentEffect | Assets/Scripts/Kinect2/Kinect2Manager.cs:301-308 | The infrared block lowers the depth flag when an infrared frame was announced and changes only the infrared buffer and at most one delivery |
| TickProperties.FramesProcessedEffect | Assets/Scripts/Kinect2/Kinect2Manager.cs:283-308 | After the frame blocks the video and depth flags are down and the infrared flag is as it was; each firing branch decodes into its buffer and raises one event, in the order video, depth, infrared; nothing else changes |
| TickProperties.InfraRedFrameRepeats | Assets/Scripts/Kinect2/Kinect2Manager.cs:301-308 | With an infrared subscriber, once an infrared frame is announced, the flag stays raised through any number of Updates and each Update raises at least one event |
| TickProperties.TickedKeepsAnnounced | Assets/Scripts/Kinect2/Kinect2Manager.cs:262-371 | Every Update keeps the last TrackedUserChanged notification equal to the tracked id |
| TickProperties.ReceivedFaceTrackingLineIsDelivered | Assets/Scripts/Kinect2/Kinect2Manager.cs:310-322 | With a face-tracking subscriber, a face-tracking line queued before an Update is delivered in it, right after the frame events and the lines queued before it |
| TickProperties.FaceDeliveriesLength | Assets/Scripts/Kinect2/Kinect2Manager.cs:318-321 | Each queued face-tracking line yields exactly one delivery |
| TickProperties.ReceivedSkeletonLineIsLastReport | Assets/Scripts/Kinect2/Kinect2Manager.cs:324-336 | After an Update, bodyData holds the last skeleton report queued before it |
| TickProperties.IdleTickChangesNothing | Assets/Scripts/Kinect2/Kinect2Manager.cs:262-371 | With nothing buffered and no tracked body, an Update changes no data field |

## Left out

- Process supervision is not modelled: launching the transmitter, redirecting its pipes, and the restart
  check at the top of `Update` (lines 275-280). `BootProcess` takes the launch outcome as its `launched`
  parameter. `ShutdownKinect` only clears the started flag. The check that a process is still running
  before a ping reply is the `processRunning` parameter of `ParseReceivedData`.
- `Start`, the static `Instance` and `started`, and `OnApplicationQuit` are Unity lifecycle glue and are
  not modelled.
- The `DataConverter` code is not part of this model: the `Is*` predicates, `GetDataContent`, and the
  `Decode*`, `Encode*` and `Get*StreamData` functions. A line carries their results, and `Update` takes
  what the three stream accessors return as its `streams` parameter (None for a null array). Commands
  are logged as values, not as encoded text.
- Decoded face and interaction data (`FaceData`, `HandPointer`) are not modelled. A delivery records the
  content string that is handed to the decoder. Skeleton joints are not modelled either; only `UserId`,
  `PlayerIndex` and `IsTracked` are.
- The locks, and the receive callback running on another thread, are not modelled. The model is
  sequential, so the unlocked read of a queue before its swap is not captured.
- `Time.time` is a `float`; the model uses a `real` time `now`.
- Logging is not modelled, nor is the `try`/`catch` in `ProcessSkeletonData`. The modelled body cannot
  throw.
- The null queue lists that exist before the first successful `BootProcess` are empty sequences in the
  model. The null checks in `Update` (lines 310, 324, 338, 351) therefore always succeed; any path that
  reads a queue needs a started manager, which has non-null lists.
- Kinect2.Kinect2Manager.OverrideTrackingId: does not model the null-reference exception when no
  transmitter process exists, because process supervision is not modelled; the command is always logged.
- Kinect2.Kinect2Manager.ChangeKinectDataTransmitterMode: same omission as `OverrideTrackingId`.
- Kinect2.Kinect2Manager.Update: the frame counter is unbounded. C# `int` would wrap after 2^31 - 1
  updates.
- An event with several subscribers is one delivery in the model. Subscribers receive the buffer array
  itself and could watch a later overwrite; the model records a snapshot of its contents per delivery.
- `UpdateFpsTrackers` has an empty body and is not modelled. `HeadTracking2.cs` is a consumer of the
  manager and is not part of this model.
- `TrackedUserChanged` is logged on every `SetTrackedBody`/`SetNoTrackedBody` call. The source raises
  nothing when that event has no subscriber (lines 89-92, 99-102), and the model has no subscriber flag
  for it.
- The subscribers are fixed for the whole of an `Update`. Event handlers cannot call back into the
  manager and cannot throw.
- `BitConverter.ToUInt16` is taken to be little-endian, as on the platforms Unity targets here; a
  big-endian host would swap the two bytes of every depth and infrared sample.
- The class predicate `IsOverrideBody` delegates to `BodyTracker.IsOverrideBody` on the tracking fields.
  The class predicate `HasTrackedBody` repeats the one-line test and proves in its contract that it
  agrees with `BodyTracker.HasTrackedBody`.
- The public `bodyData` field may be written by other components. The model only lets the manager
  write it.
