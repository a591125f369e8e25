/**
 * `CapturedFrame.init?(_:) throws` of the ODC target: a sample buffer
 * either throws a `CaptureFrameError`, gives nil, or gives a frame that
 * wraps the buffer's IOSurface. The checks run in a fixed order:
 * validity, frame status, completeness, image buffer, IOSurface.
 */
module CapturedFrames {
  import opened Wrappers
  import opened SampleBuffers

  datatype CaptureFrameError = InvalidSMSampleBuffer | NoStreamFrameInfo | NoImageBuffer | NoIOSurface

  datatype CapturedFrame = CapturedFrame(surface: IOSurface)

  /** What the failable, throwing initialiser produces. */
  datatype FrameOutcome = Thrown(error: CaptureFrameError) | NoFrame | Frame(frame: CapturedFrame)

  function FromSampleBuffer(b: SampleBuffer): (r: FrameOutcome)
    ensures r == Thrown(InvalidSMSampleBuffer) <==> !b.isValid
    ensures r == Thrown(NoStreamFrameInfo) <==> b.isValid && FirstFrameStatus(b.sampleAttachments).None?
    ensures r == NoFrame
        <==> b.isValid && exists s :: s != Complete && StoresStatus(b.sampleAttachments, s)
    ensures r == Thrown(NoImageBuffer)
        <==> b.isValid && StoresStatus(b.sampleAttachments, Complete) && b.imageBuffer.None?
    ensures r == Thrown(NoIOSurface)
        <==> && b.isValid && StoresStatus(b.sampleAttachments, Complete)
             && b.imageBuffer.Some? && b.imageBuffer.value.ioSurface.None?
    ensures r.Frame?
        <==> && b.isValid && StoresStatus(b.sampleAttachments, Complete)
             && b.imageBuffer.Some? && b.imageBuffer.value.ioSurface.Some?
    ensures r.Frame? ==> r.frame.surface == b.imageBuffer.value.ioSurface.value
  {
    if !b.isValid then Thrown(InvalidSMSampleBuffer)
    else
      match FirstFrameStatus(b.sampleAttachments)
      case None => Thrown(NoStreamFrameInfo)
      case Some(status) =>
        if status != Complete then NoFrame
        else
          match b.imageBuffer
          case None => Thrown(NoImageBuffer)
          case Some(imageBuffer) =>
            match imageBuffer.ioSurface
            case None => Thrown(NoIOSurface)
            case Some(surface) => Frame(CapturedFrame(surface))
  }

  /** Validity is checked before anything else: an invalid buffer throws whatever else it holds. */
  lemma ValidityCheckedFirst(b: SampleBuffer, attachments: seq<Attachments>, image: Option<ImageBuffer>)
    requires !b.isValid
    ensures FromSampleBuffer(b.(sampleAttachments := attachments, imageBuffer := image))
         == Thrown(InvalidSMSampleBuffer)
  {
  }

  /** A status other than complete gives nil without error, and the image buffer is never consulted. */
  lemma IncompleteIgnoresImageBuffer(b: SampleBuffer, image: Option<ImageBuffer>)
    requires b.isValid
    requires FirstFrameStatus(b.sampleAttachments).Some?
    requires FirstFrameStatus(b.sampleAttachments) != Some(Complete)
    ensures FromSampleBuffer(b) == NoFrame
    ensures FromSampleBuffer(b.(imageBuffer := image)) == NoFrame
  {
  }

  /** A status no case names is not complete: the initialiser gives nil and throws nothing. */
  lemma UnnamedStatusGivesNoFrame(raw: int, image: Option<ImageBuffer>)
    requires !(0 <= raw <= 5)
    ensures FromSampleBuffer(SampleBuffer(true, [map[FrameStatusKey := IntValue(raw)]], image, None)) == NoFrame
  {
  }

  /** A missing or unreadable status throws `noStreamFrameInfo` whatever the image buffer holds. */
  lemma MissingStatusIgnoresImageBuffer(b: SampleBuffer, image: Option<ImageBuffer>)
    requires b.isValid
    requires FirstFrameStatus(b.sampleAttachments).None?
    ensures FromSampleBuffer(b.(imageBuffer := image)) == Thrown(NoStreamFrameInfo)
  {
  }

  /** A valid buffer over `surface` with the raw value of `s` attached, as the tests build it. */
  function BufferOverSurface(s: FrameStatus, surface: Option<IOSurface>): SampleBuffer {
    SampleBuffer(true, [StatusAttachment(s)], Some(ImageBuffer(surface)), Some(FormatDescription(false)))
  }

  /**
   * The test scenarios: a complete status over an IOSurface gives a frame
   * holding that very surface; every other status gives nil; a pixel
   * buffer without an IOSurface throws `noIOSurface`; a buffer without an
   * image buffer throws `noImageBuffer`; one without attachments throws
   * `noStreamFrameInfo`.
   */
  lemma TestScenarios(surface: IOSurface, s: FrameStatus)
    ensures FromSampleBuffer(BufferOverSurface(Complete, Some(surface))) == Frame(CapturedFrame(surface))
    ensures s != Complete ==> FromSampleBuffer(BufferOverSurface(s, Some(surface))) == NoFrame
    ensures FromSampleBuffer(BufferOverSurface(Complete, None)) == Thrown(NoIOSurface)
    ensures FromSampleBuffer(BufferOverSurface(Complete, Some(surface)).(imageBuffer := None))
         == Thrown(NoImageBuffer)
    ensures FromSampleBuffer(SampleBuffer(true, [], None, None)) == Thrown(NoStreamFrameInfo)
  {
    FrameStatusRoundTrip(Complete, []);
    FrameStatusRoundTrip(s, []);
  }
}
