/**
 * An abstract CMSampleBuffer: only the parts the capture code reads.
 * The ScreenCaptureKit frame status is stored in the per-sample
 * attachments under the key `SCStreamFrameInfo.status` as an Int.
 */
module SampleBuffers {
  import opened Wrappers

  /**
   * `SCFrameStatus`, an enumeration imported from C: a wrapper around its
   * Int raw value. The SDK names the raw values 0 through 5; any other
   * value is a status no case names, which `@unknown default` handles.
   */
  datatype FrameStatus = FrameStatus(rawValue: int)

  const Complete := FrameStatus(0)
  const Idle := FrameStatus(1)
  const Blank := FrameStatus(2)
  const Suspended := FrameStatus(3)
  const Started := FrameStatus(4)
  const Stopped := FrameStatus(5)

  const NamedFrameStatuses: seq<FrameStatus> := [Complete, Idle, Blank, Suspended, Started, Stopped]

  /**
   * `SCFrameStatus(rawValue:)`. The initialiser Swift synthesises for an
   * imported enumeration never fails: every Int becomes a status.
   */
  function FrameStatusFromRaw(raw: int): (r: Option<FrameStatus>)
    ensures r.Some?
    ensures r.value.rawValue == raw
    ensures r.value in NamedFrameStatuses <==> 0 <= raw <= 5
  {
    Some(FrameStatus(raw))
  }

  /** Keys of one per-sample attachments dictionary. */
  datatype AttachmentKey = FrameStatusKey | OtherKey(name: string)

  /** An attachment value as seen through `as? Int`. */
  datatype AttachmentValue = IntValue(n: int) | NonIntValue

  type Attachments = map<AttachmentKey, AttachmentValue>

  datatype IOSurface = IOSurface(id: nat)

  /** A CVImageBuffer; `CVPixelBufferGetIOSurface` yields `ioSurface`. */
  datatype ImageBuffer = ImageBuffer(ioSurface: Option<IOSurface>)

  datatype FormatDescription = FormatDescription(isCompressed: bool)

  datatype SampleBuffer = SampleBuffer(
    isValid: bool,
    sampleAttachments: seq<Attachments>,
    imageBuffer: Option<ImageBuffer>,
    formatDescription: Option<FormatDescription>)

  /** The first attachments dictionary holds `s`'s raw value under the status key. */
  predicate StoresStatus(attachments: seq<Attachments>, s: FrameStatus) {
    && |attachments| > 0
    && FrameStatusKey in attachments[0]
    && attachments[0][FrameStatusKey] == IntValue(s.rawValue)
  }

  /**
   * `attachments.first?[.status] as? Int` followed by `SCFrameStatus(rawValue:)`:
   * nil exactly when there is no first dictionary, it has no status key,
   * or the value is not an Int.
   */
  function FirstFrameStatus(attachments: seq<Attachments>): (r: Option<FrameStatus>)
    ensures forall s :: StoresStatus(attachments, s) ==> r == Some(s)
    ensures r.Some? ==> StoresStatus(attachments, r.value)
    ensures r.None?
        <==> |attachments| == 0 || FrameStatusKey !in attachments[0] || attachments[0][FrameStatusKey] == NonIntValue
  {
    if |attachments| == 0 || FrameStatusKey !in attachments[0] then None
    else
      match attachments[0][FrameStatusKey]
      case NonIntValue => None
      case IntValue(n) => FrameStatusFromRaw(n)
  }

  /** An attachments dictionary holding only the raw value of `s`, as the tests build it. */
  function StatusAttachment(s: FrameStatus): Attachments {
    map[FrameStatusKey := IntValue(s.rawValue)]
  }

  /** Storing the raw value of any status, named or not, and reading it back returns that status. */
  lemma FrameStatusRoundTrip(s: FrameStatus, rest: seq<Attachments>)
    ensures FirstFrameStatus([StatusAttachment(s)] + rest) == Some(s)
  {
  }
}
