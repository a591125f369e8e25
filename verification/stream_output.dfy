/**
 * The `StreamOutput` of the broadcasting app: the ScreenCaptureKit
 * callback filters each sample and yields the accepted ones into the
 * output's newest-1 stream; a consumer task takes them out and appends
 * them to the shared `MediaMixer`, but only while the mixer is running.
 */
module StreamOutputs {
  import opened Wrappers
  import opened SampleBuffers
  import VideoMetadata
  import NewestChannel

  /** `SCStreamOutputType`; `UnknownType` stands for cases added after the code was written. */
  datatype OutputType = Screen | Audio | Microphone | UnknownType(raw: int)

  /** What the callback does with one sample. */
  datatype Routing = Dropped | Forwarded | PreconditionFailure

  /** `SCVideoMetadata(sampleBuffer)?.status == .complete`. */
  predicate ReportsComplete(b: SampleBuffer) {
    VideoMetadata.FromSampleBuffer(b) == Some(VideoMetadata.SCVideoMetadata(Complete))
  }

  /** `sampleBuffer.formatDescription?.isCompressed == false`: a missing description fails it too. */
  predicate IsUncompressed(b: SampleBuffer) {
    b.formatDescription == Some(FormatDescription(false))
  }

  /** `stream(_:didOutputSampleBuffer:of:)`, as a decision. */
  function Route(t: OutputType, b: SampleBuffer): (r: Routing)
    ensures r == Forwarded
        <==> b.isValid && (t == Microphone || (t == Screen && ReportsComplete(b) && IsUncompressed(b)))
    ensures r == PreconditionFailure
        <==> b.isValid && t == Screen && ReportsComplete(b) && !IsUncompressed(b)
    ensures !b.isValid || t.Audio? || t.UnknownType? ==> r == Dropped
  {
    if !b.isValid then Dropped
    else
      match t
      case Screen =>
        if !ReportsComplete(b) then Dropped
        else if !IsUncompressed(b) then PreconditionFailure
        else Forwarded
      case Microphone => Forwarded
      case Audio => Dropped
      case UnknownType(_) => Dropped
  }

  /** A screen sample that carries a frame status of `s` passes the filter only when `s` is complete. */
  lemma ScreenSamplesNeedCompleteStatus(b: SampleBuffer, s: FrameStatus)
    requires b.isValid && IsUncompressed(b)
    requires StoresStatus(b.sampleAttachments, s)
    ensures Route(Screen, b) == Forwarded <==> s == Complete
  {
  }

  /** One output: its type, the mixer track it appends to, and its newest-1 buffer. */
  datatype StreamOutput = StreamOutput(outputType: OutputType, track: nat, buffered: Option<SampleBuffer>)

  datatype Appended = Appended(buffer: SampleBuffer, track: nat)

  /** The part of HaishinKit's `MediaMixer` the outputs use: its running flag and what was appended. */
  datatype MediaMixer = MediaMixer(isRunning: bool, appended: seq<Appended>)

  /**
   * The callback on one output: the sample is yielded into the output's
   * buffer, replacing what was there, when it passes the filter. None is
   * the precondition failure on a compressed screen sample.
   */
  function DidOutputSampleBuffer(o: StreamOutput, t: OutputType, b: SampleBuffer): (r: Option<StreamOutput>)
    ensures r.None? <==> Route(t, b) == PreconditionFailure
    ensures r.Some? ==> r.value.outputType == o.outputType && r.value.track == o.track
    ensures r.Some? && Route(t, b) == Forwarded ==> r.value.buffered == Some(b)
    ensures r.Some? && Route(t, b) == Dropped ==> r.value == o
  {
    match Route(t, b)
    case PreconditionFailure => None
    case Forwarded => Some(o.(buffered := Some(b)))
    case Dropped => Some(o)
  }

  /**
   * One turn of the consumer loop `for await sampleBuffer in stream where
   * mixer.isRunning`: the buffered sample is taken out either way and is
   * appended only while the mixer runs.
   */
  function Consume(o: StreamOutput, m: MediaMixer): (r: (StreamOutput, MediaMixer))
    ensures r.0 == o.(buffered := None)
    ensures r.1.isRunning == m.isRunning
    ensures !m.isRunning ==> r.1 == m
    ensures m.isRunning && o.buffered.Some? ==> r.1.appended == m.appended + [Appended(o.buffered.value, o.track)]
    ensures o.buffered.None? ==> r.1 == m
  {
    match o.buffered
    case None => (o, m)
    case Some(b) =>
      if m.isRunning then (o.(buffered := None), m.(appended := m.appended + [Appended(b, o.track)]))
      else (o.(buffered := None), m)
  }

  /** The output's buffer and consumer driven by a sequence of already-filtered stream steps. */
  function Drive(o: StreamOutput, m: MediaMixer, ops: seq<NewestChannel.Op<SampleBuffer>>): (StreamOutput, MediaMixer)
    decreases |ops|
  {
    if |ops| == 0 then (o, m)
    else
      match ops[0]
      case Yield(b) => Drive(o.(buffered := Some(b)), m, ops[1..])
      case Next =>
        var (o', m') := Consume(o, m);
        Drive(o', m', ops[1..])
  }

  function AsAppended(received: seq<SampleBuffer>, track: nat): (r: seq<Appended>)
    ensures |r| == |received|
    ensures forall i :: 0 <= i < |r| ==> r[i] == Appended(received[i], track)
  {
    seq(|received|, i requires 0 <= i < |received| => Appended(received[i], track))
  }

  /**
   * The mixer receives exactly what the newest-1 stream delivers while it
   * runs, on the output's track, and nothing at all while it is stopped;
   * the output's buffer ends as the stream's does.
   */
  lemma {:induction false} MixerGetsWhatChannelDelivers(o: StreamOutput, m: MediaMixer, ops: seq<NewestChannel.Op<SampleBuffer>>)
    ensures var (o', m') := Drive(o, m, ops);
            var out := NewestChannel.Run(o.buffered, ops);
            && o'.buffered == out.buffered
            && o'.outputType == o.outputType && o'.track == o.track
            && m'.isRunning == m.isRunning
            && m'.appended == m.appended + (if m.isRunning then AsAppended(out.received, o.track) else [])
    decreases |ops|
  {
    if |ops| > 0 {
      match ops[0]
      case Yield(b) =>
        MixerGetsWhatChannelDelivers(o.(buffered := Some(b)), m, ops[1..]);
      case Next =>
        var (o', m') := Consume(o, m);
        MixerGetsWhatChannelDelivers(o', m', ops[1..]);
        var rest := NewestChannel.Run(None, ops[1..]);
        if o.buffered.Some? && m.isRunning {
          assert AsAppended([o.buffered.value] + rest.received, o.track)
              == [Appended(o.buffered.value, o.track)] + AsAppended(rest.received, o.track);
        }
    }
  }
}
