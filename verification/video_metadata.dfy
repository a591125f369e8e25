/**
 * `SCVideoMetadata`: the frame status of a screen sample, read from the
 * first per-sample attachments dictionary. The Capture package builds it
 * from a whole sample buffer; the ODCLite target builds it from the
 * attachments array alone.
 */
module VideoMetadata {
  import opened Wrappers
  import opened SampleBuffers

  datatype SCVideoMetadata = SCVideoMetadata(status: FrameStatus)

  /** Capture package: `SCVideoMetadata.init?(_ sampleBuffer:)`. */
  function FromSampleBuffer(b: SampleBuffer): (r: Option<SCVideoMetadata>)
    ensures forall s :: StoresStatus(b.sampleAttachments, s) ==> r == Some(SCVideoMetadata(s))
    ensures r.Some? ==> StoresStatus(b.sampleAttachments, r.value.status)
  {
    FirstFrameStatus(b.sampleAttachments).Map(s => SCVideoMetadata(s))
  }

  /** ODCLite target: `SCVideoMetadata.init?(_ attachments:)`. */
  function FromAttachments(attachments: seq<Attachments>): (r: Option<SCVideoMetadata>)
    ensures forall s :: StoresStatus(attachments, s) ==> r == Some(SCVideoMetadata(s))
    ensures r.Some? ==> StoresStatus(attachments, r.value.status)
  {
    match FirstFrameStatus(attachments)
    case None => None
    case Some(s) => Some(SCVideoMetadata(s))
  }

  /** A sample buffer with one sample and the raw value of `s` attached, as the package's tests build it. */
  function BufferWithStatus(s: FrameStatus): SampleBuffer {
    SampleBuffer(true, [StatusAttachment(s)], None, None)
  }

  /** For every status, named or not, storing its raw value and parsing the buffer returns that status. */
  lemma MetadataRoundTrip(s: FrameStatus)
    ensures FromSampleBuffer(BufferWithStatus(s)) == Some(SCVideoMetadata(s))
    ensures FromAttachments(BufferWithStatus(s).sampleAttachments) == Some(SCVideoMetadata(s))
  {
    FrameStatusRoundTrip(s, []);
  }

  /** Only the first dictionary is consulted: whatever follows it never changes the result. */
  lemma OnlyFirstAttachmentConsulted(first: Attachments, rest1: seq<Attachments>, rest2: seq<Attachments>)
    ensures FromAttachments([first] + rest1) == FromAttachments([first] + rest2)
    ensures FromSampleBuffer(SampleBuffer(true, [first] + rest1, None, None))
         == FromAttachments([first] + rest2)
  {
  }

  /** Exactly no attachments, no status key or a non-Int value give nil. */
  lemma MetadataNilCases(attachments: seq<Attachments>)
    ensures FromAttachments(attachments) == None
        <==> || |attachments| == 0
             || FrameStatusKey !in attachments[0]
             || attachments[0][FrameStatusKey] == NonIntValue
    ensures FromSampleBuffer(SampleBuffer(true, attachments, None, None)) == FromAttachments(attachments)
  {
  }

  /** An Int no case names still gives metadata, carrying a status that is none of the six. */
  lemma UnnamedStatusGivesMetadata(raw: int, rest: seq<Attachments>)
    requires !(0 <= raw <= 5)
    ensures FromAttachments([map[FrameStatusKey := IntValue(raw)]] + rest) == Some(SCVideoMetadata(FrameStatus(raw)))
    ensures FromAttachments([map[FrameStatusKey := IntValue(raw)]] + rest).value.status !in NamedFrameStatuses
  {
  }

  /** The buffer with no samples that the tests build has no metadata. */
  lemma EmptyBufferHasNoMetadata()
    ensures FromSampleBuffer(SampleBuffer(true, [], None, None)) == None
  {
  }
}
