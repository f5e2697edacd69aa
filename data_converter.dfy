/**
 * The part of the DataConverter namespace that Kinect2Manager depends on.
 *
 * The converter's own code (its Is* predicates, GetDataContent and the Decode* functions) is not
 * part of this model. Those functions are pure, so a line is represented together with what they
 * compute from it, and every statement proved about the manager holds whatever they compute.
 */
module DataConverter {

  /** C# `ulong`: Kinect body identifiers. */
  newtype ulong = x: int | 0 <= x < 0x1_0000_0000_0000_0000

  /** C# `int`: player indices. */
  newtype int32 = x: int | -0x8000_0000 <= x < 0x8000_0000

  /** The fields of a decoded skeleton report that the manager reads (the joints are only forwarded). */
  datatype BodyData = BodyData(userId: ulong, playerIndex: int32, isTracked: bool)

  /** The pose kinds of a pose-action message (spellings as in the converter's enum). */
  datatype PoseType = Swith | LassoLeft | LassoReight

  /** A decoded pose-action message: the body that made the pose and the pose. */
  datatype PoseEvent = PoseEvent(bodyId: ulong, poseType: PoseType)

  /** A KinectDeviceMode flags value: which of the Body, Interaction and Depth flags are set. */
  datatype KinectDeviceMode = KinectDeviceMode(body: bool, interaction: bool, depth: bool)

  /** `KinectDeviceMode.Body | KinectDeviceMode.Interaction | KinectDeviceMode.Depth`. */
  const BodyInteractionDepth := KinectDeviceMode(true, true, true)

  /** `KinectDeviceMode.Interaction | KinectDeviceMode.Depth`. */
  const InteractionDepth := KinectDeviceMode(false, true, true)

  /** The message categories the converter's Is* predicates recognise. */
  datatype Category =
    | FaceTrackingData | SkeletonData | VideoFrameData | DepthFrameData | InfraRedFrameData
    | PingMessage | ErrorMessage | InformationMessage
    | NewInteractionUserData | InteractionUserLeftData | InteractionData | PoseActionData

  /** The lines the manager writes to the data transmitter's standard input. */
  datatype Command =
    | ByteOrderMarkReset                              // the "1" written right after launch
    | PingReply                                       // Converter.EncodePingData()
    | DeviceModeChange(mode: KinectDeviceMode)        // Converter.EncodeKinectDeviceMode(mode)
    | HandTrackingBodyChange(bodyId: ulong)           // Converter.EncodeChangeHandTrackingBody(id)

  /**
   * The payload of a line, `Converter.GetDataContent(line)`, together with what the converter's
   * decoders compute from it: `body` is DecodeSkeletonData's report and `pose` is
   * DecodePoseActionData's event (each read only when the line is of that category).
   */
  datatype Content = Content(text: string, body: BodyData, pose: PoseEvent)

  /**
   * A line read from the transmitter's standard output, together with what the converter's pure
   * functions compute from it: `categories` holds the categories whose Is* predicate accepts the
   * line (the predicates need not be exclusive) and `content` is its payload.
   */
  datatype Line = Line(text: string, categories: set<Category>, content: Content)
}
