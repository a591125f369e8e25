/**
 * The broadcasting app's `BroadcastManager`: the `isBroadcasting` state
 * machine driven by `toogleBroadcast` and by the RTMP connection's status
 * stream, the two sample outputs feeding the shared mixer, the capture
 * configuration and content filter derived from the toggles, and the
 * camera authorisation mapping.
 *
 * Calls into HaishinKit, ScreenCaptureKit and AVFoundation are recorded
 * as `Effect`s; whether a throwing call succeeds is an input.
 */
module BroadcastManager {
  import opened Wrappers
  import opened SampleBuffers
  import opened CaptureSettings
  import opened StreamOutputs

  const IngestURL := "rtmps://lhr08.contribute.live-video.net/app/"
  const BandwidthTestQuery := "?bandwidthtest=true"

  datatype BitRateMode = ConstantBitRate
  datatype ProfileLevel = H264HighAutoLevel

  datatype VideoCodecSettings = VideoCodecSettings(
    width: int, height: int, bitRate: int,
    profileLevel: ProfileLevel, bitRateMode: BitRateMode, allowFrameReordering: bool)

  /** 1080p at 6 Mbit/s, constant bit rate, H.264 High, B-frames off. */
  const BroadcastVideoSettings := VideoCodecSettings(1920, 1080, 6000 * 1000, H264HighAutoLevel, ConstantBitRate, false)

  datatype SessionPreset = High

  /** Calls the manager makes, in order; `BroadcastingFlag` records each write of `isBroadcasting`. */
  datatype Effect =
    | BroadcastingFlag(value: bool)
    | StopMixer
    | CloseConnection
    | Connect(url: string)
    | SetVideoSettings(settings: VideoCodecSettings)
    | Publish(name: string)
    | SetSessionPreset(preset: SessionPreset)
    | SetFrameRate(framesPerSecond: int)
    | StartMixer
    | UpdateContentFilter(filter: ContentFilter)
    | UpdateConfiguration(configuration: StreamConfiguration)

  /**
   * What the manager reads from the system: the shareable content fetched
   * by `configureManager`, a fresh `SCStreamConfiguration`, the default
   * audio device's id, the main screen's scale factor, the app's bundle id.
   */
  datatype Platform = Platform(
    content: ShareableContent,
    freshConfiguration: StreamConfiguration,
    defaultMicrophoneID: Option<string>,
    scaleFactor: int,
    ownBundleID: Option<string>)

  /** `currentDisplay` force-unwraps the first display, so every derivation needs one. */
  predicate HasDisplay(p: Platform) {
    |p.content.displays| > 0
  }

  datatype Manager = Manager(
    excludeAppFromStream: bool,
    captureMicrophone: bool,
    bandwidthTestEnabled: bool,
    primaryStreamKey: string,
    isBroadcasting: bool,
    platform: Platform,
    stream: CaptureStream,
    mixer: MediaMixer,
    screenOutput: StreamOutput,
    microphoneOutput: StreamOutput,
    effects: seq<Effect>)

  /** `streamConfiguration`. */
  function ConfigurationFor(p: Platform, captureMicrophone: bool): (r: StreamConfiguration)
    requires HasDisplay(p)
    ensures r.excludesCurrentProcessAudio
    ensures r.capturesAudio == p.freshConfiguration.capturesAudio
    ensures r.captureMicrophone == captureMicrophone
    ensures IsFresh(p.freshConfiguration)
        ==> r.microphoneCaptureDeviceID == (if captureMicrophone then p.defaultMicrophoneID else None)
    ensures r.width == p.content.displays[0].width * p.scaleFactor
    ensures r.height == p.content.displays[0].height * p.scaleFactor
    ensures r.minimumFrameInterval == CMTime(1, 60)
    ensures r.queueDepth == 5
  {
    var audio := p.freshConfiguration.(excludesCurrentProcessAudio := true);
    var withMicrophone := WithMicrophone(audio, captureMicrophone, p.defaultMicrophoneID);
    var display := p.content.displays[0];
    withMicrophone.(
      width := display.width * p.scaleFactor,
      height := display.height * p.scaleFactor,
      minimumFrameInterval := CMTime(1, 60),
      queueDepth := 5)
  }

  /**
   * The microphone toggle reaches only the microphone flag and device id:
   * the two configurations agree everywhere else, and differ exactly when
   * the toggles do.
   */
  lemma ConfigurationMicrophoneOnly(p: Platform, a: bool, b: bool)
    requires HasDisplay(p)
    ensures ConfigurationFor(p, a).(captureMicrophone := b, microphoneCaptureDeviceID := ConfigurationFor(p, b).microphoneCaptureDeviceID)
         == ConfigurationFor(p, b)
    ensures ConfigurationFor(p, a) == ConfigurationFor(p, b) <==> a == b
  {
  }

  /** `streamContentFilter`, over the content cached by `configureManager`. */
  function ContentFilterFor(p: Platform, excludeAppFromStream: bool): (r: ContentFilter)
    requires HasDisplay(p)
    ensures r.display == p.content.displays[0]
    ensures r.exceptingWindows == []
    ensures !excludeAppFromStream ==> r.excludingApplications == []
    ensures excludeAppFromStream ==>
      forall a :: a in r.excludingApplications
             <==> a in p.content.applications && p.ownBundleID == Some(a.bundleIdentifier)
  {
    StreamContentFilter(p.content.displays[0], p.content.applications, excludeAppFromStream, p.ownBundleID)
  }

  /** The manager once `configureManager` has created the stream and registered both outputs. */
  function Configured(p: Platform): (m: Manager)
    requires HasDisplay(p)
    ensures m.excludeAppFromStream && !m.captureMicrophone && !m.bandwidthTestEnabled && m.primaryStreamKey == ""
    ensures !m.isBroadcasting && !m.mixer.isRunning && m.mixer.appended == []
    ensures m.stream.configuration.captureMicrophone == false
    ensures m.stream.filter.excludingApplications == OwnApplications(p.content.applications, p.ownBundleID)
    ensures Invariant(m)
  {
    Manager(
      excludeAppFromStream := true,
      captureMicrophone := false,
      bandwidthTestEnabled := false,
      primaryStreamKey := "",
      isBroadcasting := false,
      platform := p,
      stream := CaptureStream(ContentFilterFor(p, true), ConfigurationFor(p, false)),
      mixer := MediaMixer(false, []),
      screenOutput := StreamOutput(Screen, 0, None),
      microphoneOutput := StreamOutput(Microphone, 0, None),
      effects := [])
  }

  // ---------------------------------------------------------------------------
  // Starting and stopping the broadcast
  // ---------------------------------------------------------------------------

  /** The stream key, with the bandwidth-test query appended when the test is on. */
  function PublishName(primaryStreamKey: string, bandwidthTestEnabled: bool): (r: string)
    ensures |r| >= |primaryStreamKey| && r[..|primaryStreamKey|] == primaryStreamKey
    ensures r[|primaryStreamKey|..] == if bandwidthTestEnabled then BandwidthTestQuery else ""
  {
    if bandwidthTestEnabled then primaryStreamKey + BandwidthTestQuery else primaryStreamKey
  }

  /** Whether `name` ends with the bandwidth-test query. */
  predicate EndsWithBandwidthTestQuery(name: string) {
    |name| >= |BandwidthTestQuery| && name[|name| - |BandwidthTestQuery|..] == BandwidthTestQuery
  }

  /** Reads a publish name back as a stream key and whether the bandwidth test is on. */
  function SplitPublishName(name: string): (r: (string, bool))
    ensures r.1 <==> EndsWithBandwidthTestQuery(name)
    ensures (if r.1 then r.0 + BandwidthTestQuery else r.0) == name
  {
    if EndsWithBandwidthTestQuery(name) then (name[..|name| - |BandwidthTestQuery|], true) else (name, false)
  }

  /** A stream key that does not itself end with the query is recovered, with the flag, from its publish name. */
  lemma PublishNameRoundTrip(primaryStreamKey: string, bandwidthTestEnabled: bool)
    requires !EndsWithBandwidthTestQuery(primaryStreamKey)
    ensures SplitPublishName(PublishName(primaryStreamKey, bandwidthTestEnabled)) == (primaryStreamKey, bandwidthTestEnabled)
  {
  }

  /** Among such keys, different keys or flags give different publish names. */
  lemma PublishNameInjective(key1: string, enabled1: bool, key2: string, enabled2: bool)
    requires !EndsWithBandwidthTestQuery(key1) && !EndsWithBandwidthTestQuery(key2)
    ensures PublishName(key1, enabled1) == PublishName(key2, enabled2) <==> key1 == key2 && enabled1 == enabled2
  {
  }

  /** A key that already ends with the query publishes, with the test off, the name of its prefix with the test on. */
  lemma PublishNameAmbiguous(primaryStreamKey: string)
    ensures PublishName(primaryStreamKey + BandwidthTestQuery, false) == PublishName(primaryStreamKey, true)
    ensures primaryStreamKey + BandwidthTestQuery != primaryStreamKey
  {
  }

  /** Whether each throwing call of one `toogleBroadcast` returns or throws. */
  datatype CallResults = CallResults(closeSucceeds: bool, connectSucceeds: bool, publishSucceeds: bool)

  /** Everything but the broadcast flag, the mixer's running flag and the effect log is left alone. */
  predicate SameSetup(r: Manager, m: Manager) {
    r.(isBroadcasting := m.isBroadcasting, mixer := r.mixer.(isRunning := m.mixer.isRunning), effects := m.effects) == m
  }

  /**
   * `toogleBroadcast`. While broadcasting: stop the mixer, close the
   * connection and clear the flag, whether or not `close` throws. Otherwise
   * set the flag, connect, apply the codec settings, publish, then start
   * the mixer; a throw from connect or publish clears the flag and skips
   * everything after it.
   */
  function ToggleBroadcast(m: Manager, calls: CallResults): (r: Manager)
    requires HasDisplay(m.platform)
    ensures r.isBroadcasting <==> !m.isBroadcasting && calls.connectSucceeds && calls.publishSucceeds
    ensures m.isBroadcasting ==> !r.mixer.isRunning
    ensures !m.isBroadcasting ==> (r.mixer.isRunning <==> m.mixer.isRunning || r.isBroadcasting)
    ensures SameSetup(r, m)
    ensures |r.effects| > |m.effects| && r.effects[..|m.effects|] == m.effects
  {
    if m.isBroadcasting then
      // The catch clause clears the flag too, so the outcome of `close` does not matter.
      m.(mixer := m.mixer.(isRunning := false),
         isBroadcasting := false,
         effects := m.effects + [StopMixer, CloseConnection, BroadcastingFlag(false)])
    else
      var connecting := m.effects + [BroadcastingFlag(true), Connect(IngestURL)];
      if !calls.connectSucceeds then
        m.(isBroadcasting := false, effects := connecting + [BroadcastingFlag(false)])
      else
        var publishing := connecting + [SetVideoSettings(BroadcastVideoSettings),
                                        Publish(PublishName(m.primaryStreamKey, m.bandwidthTestEnabled))];
        if !calls.publishSucceeds then
          m.(isBroadcasting := false, effects := publishing + [BroadcastingFlag(false)])
        else
          var frameRate := ConfigurationFor(m.platform, m.captureMicrophone).minimumFrameInterval.timescale;
          m.(isBroadcasting := true,
             mixer := m.mixer.(isRunning := true),
             effects := publishing + [SetSessionPreset(High), SetFrameRate(frameRate), StartMixer])
  }

  /** The calls one toggle makes, for each of its four paths. */
  lemma ToggleEffects(m: Manager, calls: CallResults)
    requires HasDisplay(m.platform)
    ensures m.isBroadcasting ==>
      ToggleBroadcast(m, calls).effects[|m.effects|..] == [StopMixer, CloseConnection, BroadcastingFlag(false)]
    ensures !m.isBroadcasting && !calls.connectSucceeds ==>
      ToggleBroadcast(m, calls).effects[|m.effects|..]
      == [BroadcastingFlag(true), Connect(IngestURL), BroadcastingFlag(false)]
    ensures !m.isBroadcasting && calls.connectSucceeds && !calls.publishSucceeds ==>
      ToggleBroadcast(m, calls).effects[|m.effects|..]
      == [BroadcastingFlag(true), Connect(IngestURL), SetVideoSettings(BroadcastVideoSettings),
          Publish(PublishName(m.primaryStreamKey, m.bandwidthTestEnabled)), BroadcastingFlag(false)]
    ensures !m.isBroadcasting && calls.connectSucceeds && calls.publishSucceeds ==>
      ToggleBroadcast(m, calls).effects[|m.effects|..]
      == [BroadcastingFlag(true), Connect(IngestURL), SetVideoSettings(BroadcastVideoSettings),
          Publish(PublishName(m.primaryStreamKey, m.bandwidthTestEnabled)),
          SetSessionPreset(High), SetFrameRate(60), StartMixer]
  {
  }

  /** The mixer is started by a toggle exactly when that toggle's connect and publish both returned. */
  lemma MixerStartsOnlyAfterConnectAndPublish(m: Manager, calls: CallResults)
    requires HasDisplay(m.platform)
    ensures StartMixer in ToggleBroadcast(m, calls).effects[|m.effects|..]
        <==> !m.isBroadcasting && calls.connectSucceeds && calls.publishSucceeds
  {
    ToggleEffects(m, calls);
  }

  /** Stopping ignores whether `close` throws: both outcomes give the same manager. */
  lemma StopIgnoresCloseOutcome(m: Manager, calls: CallResults)
    requires HasDisplay(m.platform) && m.isBroadcasting
    ensures ToggleBroadcast(m, calls) == ToggleBroadcast(m, calls.(closeSucceeds := !calls.closeSucceeds))
    ensures !ToggleBroadcast(m, calls).isBroadcasting
  {
  }

  /** A start that succeeds and the stop after it, whatever `close` does, leave the manager idle with the mixer stopped. */
  lemma StartThenStop(m: Manager, start: CallResults, stop: CallResults)
    requires HasDisplay(m.platform) && !m.isBroadcasting
    requires start.connectSucceeds && start.publishSucceeds
    ensures var live := ToggleBroadcast(m, start);
            && live.isBroadcasting && live.mixer.isRunning
            && !ToggleBroadcast(live, stop).isBroadcasting
            && !ToggleBroadcast(live, stop).mixer.isRunning
  {
  }

  // ---------------------------------------------------------------------------
  // The RTMP connection's status stream
  // ---------------------------------------------------------------------------

  /** `RTMPConnection.Code`, of which only `connectSuccess` matters here. */
  datatype RtmpConnectionCode = ConnectSuccess | OtherCode(rawValue: string)

  /** One status event; `code` is `RTMPConnection.Code(rawValue:)`, nil for codes it does not know. */
  datatype RtmpStatus = RtmpStatus(level: string, code: Option<RtmpConnectionCode>)

  predicate KeepsBroadcasting(s: RtmpStatus) {
    s.level != "error" && s.code == Some(ConnectSuccess)
  }

  /**
   * One turn of the status loop: every event except a non-error
   * `connectSuccess` clears `isBroadcasting`, and nothing else.
   */
  function OnConnectionStatus(m: Manager, s: RtmpStatus): (r: Manager)
    ensures r.isBroadcasting <==> m.isBroadcasting && s.level != "error" && s.code == Some(ConnectSuccess)
    ensures r.(isBroadcasting := m.isBroadcasting, effects := m.effects) == m
  {
    if s.level != "error" && s.code == Some(ConnectSuccess) then m
    else m.(isBroadcasting := false, effects := m.effects + [BroadcastingFlag(false)])
  }

  /** The status loop over a finite stretch of the stream. */
  function OnConnectionStatuses(m: Manager, statuses: seq<RtmpStatus>): (r: Manager)
    ensures r.isBroadcasting <==> m.isBroadcasting && forall i :: 0 <= i < |statuses| ==> KeepsBroadcasting(statuses[i])
    ensures r.(isBroadcasting := m.isBroadcasting, effects := m.effects) == m
    decreases |statuses|
  {
    if |statuses| == 0 then m
    else OnConnectionStatuses(OnConnectionStatus(m, statuses[0]), statuses[1..])
  }

  /**
   * A status event that ends the broadcast leaves the mixer as it was:
   * a running mixer keeps running and the connection is not closed.
   */
  lemma StatusLossKeepsMixerRunning(m: Manager, s: RtmpStatus)
    requires m.isBroadcasting && m.mixer.isRunning && !KeepsBroadcasting(s)
    ensures !OnConnectionStatus(m, s).isBroadcasting
    ensures OnConnectionStatus(m, s).mixer.isRunning
    ensures CloseConnection !in OnConnectionStatus(m, s).effects[|m.effects|..]
  {
  }

  // ---------------------------------------------------------------------------
  // Sample outputs
  // ---------------------------------------------------------------------------

  datatype OutputSelector = ScreenOutput | MicrophoneOutput

  function OutputOf(m: Manager, w: OutputSelector): StreamOutput {
    match w
    case ScreenOutput => m.screenOutput
    case MicrophoneOutput => m.microphoneOutput
  }

  function WithOutput(m: Manager, w: OutputSelector, o: StreamOutput): Manager {
    match w
    case ScreenOutput => m.(screenOutput := o)
    case MicrophoneOutput => m.(microphoneOutput := o)
  }

  /**
   * ScreenCaptureKit calls each output with the type it was registered
   * for: a forwarded sample replaces the output's buffered one, and
   * nothing else changes. None is a precondition failure.
   */
  function OnSample(m: Manager, w: OutputSelector, b: SampleBuffer): (r: Option<Manager>)
    ensures r.None? <==> Route(OutputOf(m, w).outputType, b) == PreconditionFailure
    ensures r.Some? ==> r.value == WithOutput(m, w, OutputOf(r.value, w))
    ensures r.Some? ==> OutputOf(r.value, w).outputType == OutputOf(m, w).outputType && OutputOf(r.value, w).track == OutputOf(m, w).track
    ensures r.Some? && Route(OutputOf(m, w).outputType, b) == Forwarded ==> OutputOf(r.value, w).buffered == Some(b)
    ensures r.Some? && Route(OutputOf(m, w).outputType, b) == Dropped ==> r.value == m
  {
    var o := OutputOf(m, w);
    match DidOutputSampleBuffer(o, o.outputType, b)
    case None => None
    case Some(o') => Some(WithOutput(m, w, o'))
  }

  /** One turn of the consumer task of output `w`. */
  function OnConsume(m: Manager, w: OutputSelector): (r: Manager)
    ensures OutputOf(r, w).buffered.None?
    ensures OutputOf(r, w) == OutputOf(m, w).(buffered := None)
    ensures r.mixer.isRunning == m.mixer.isRunning
    ensures var o := OutputOf(m, w);
            r.mixer.appended == m.mixer.appended + if m.mixer.isRunning && o.buffered.Some? then [Appended(o.buffered.value, o.track)] else []
    ensures r == WithOutput(m, w, OutputOf(r, w)).(mixer := r.mixer)
  {
    var (o', mixer') := Consume(OutputOf(m, w), m.mixer);
    WithOutput(m, w, o').(mixer := mixer')
  }

  // ---------------------------------------------------------------------------
  // Toggles that reconfigure the capture stream
  // ---------------------------------------------------------------------------

  /** `excludeAppFromStream`'s `didSet`: one content-filter update; the stream keeps its old filter if it fails. */
  function SetExcludeAppFromStream(m: Manager, value: bool, updateSucceeds: bool): (r: Manager)
    requires HasDisplay(m.platform)
    ensures r.excludeAppFromStream == value
    ensures r.effects == m.effects + [UpdateContentFilter(ContentFilterFor(m.platform, value))]
    ensures r.stream.configuration == m.stream.configuration
    ensures r.stream.filter == if updateSucceeds then ContentFilterFor(m.platform, value) else m.stream.filter
    ensures r.isBroadcasting == m.isBroadcasting && r.mixer == m.mixer
    ensures r.(excludeAppFromStream := m.excludeAppFromStream, effects := m.effects, stream := m.stream) == m
  {
    var filter := ContentFilterFor(m.platform, value);
    m.(excludeAppFromStream := value,
       effects := m.effects + [UpdateContentFilter(filter)],
       stream := if updateSucceeds then m.stream.(filter := filter) else m.stream)
  }

  /** `captureMicrophone`'s `didSet`: one configuration update; the stream keeps its old configuration if it fails. */
  function SetCaptureMicrophone(m: Manager, value: bool, updateSucceeds: bool): (r: Manager)
    requires HasDisplay(m.platform)
    ensures r.captureMicrophone == value
    ensures r.effects == m.effects + [UpdateConfiguration(ConfigurationFor(m.platform, value))]
    ensures r.effects[|r.effects| - 1].configuration.captureMicrophone == value
    ensures r.stream.filter == m.stream.filter
    ensures r.stream.configuration == if updateSucceeds then ConfigurationFor(m.platform, value) else m.stream.configuration
    ensures r.isBroadcasting == m.isBroadcasting && r.mixer == m.mixer
    ensures r.(captureMicrophone := m.captureMicrophone, effects := m.effects, stream := m.stream) == m
  {
    var configuration := ConfigurationFor(m.platform, value);
    m.(captureMicrophone := value,
       effects := m.effects + [UpdateConfiguration(configuration)],
       stream := if updateSucceeds then m.stream.(configuration := configuration) else m.stream)
  }

  // ---------------------------------------------------------------------------
  // Runs of events
  // ---------------------------------------------------------------------------

  datatype Event =
    | Toggle(calls: CallResults)
    | Status(status: RtmpStatus)
    | SampleArrives(output: OutputSelector, buffer: SampleBuffer)
    | ConsumerTakes(output: OutputSelector)
    | ExcludeAppToggled(value: bool, updateSucceeds: bool)
    | MicrophoneToggled(value: bool, updateSucceeds: bool)
    | BandwidthTestToggled(value: bool)
    | StreamKeyEdited(key: string)
    | SystemChanged(defaultMicrophoneID: Option<string>, scaleFactor: int)

  /**
   * One event; None when it hits the compressed-sample precondition.
   * `SystemChanged` is a new default microphone or main-screen scale
   * factor: the manager reads both afresh whenever it derives a
   * configuration. The shareable content stays as `configureManager`
   * cached it, and calls only ever append to the effect log.
   */
  function Step(m: Manager, e: Event): (r: Option<Manager>)
    requires HasDisplay(m.platform)
    ensures r.Some? ==> r.value.platform.content == m.platform.content
  {
    match e
    case Toggle(calls) => Some(ToggleBroadcast(m, calls))
    case Status(s) => Some(OnConnectionStatus(m, s))
    case SampleArrives(w, b) => OnSample(m, w, b)
    case ConsumerTakes(w) => Some(OnConsume(m, w))
    case ExcludeAppToggled(v, ok) => Some(SetExcludeAppFromStream(m, v, ok))
    case MicrophoneToggled(v, ok) => Some(SetCaptureMicrophone(m, v, ok))
    case BandwidthTestToggled(v) => Some(m.(bandwidthTestEnabled := v))
    case StreamKeyEdited(k) => Some(m.(primaryStreamKey := k))
    case SystemChanged(id, scale) => Some(m.(platform := m.platform.(defaultMicrophoneID := id, scaleFactor := scale)))
  }

  /** The events in turn; None once one hits the precondition. */
  function Run(m: Manager, events: seq<Event>): (r: Option<Manager>)
    requires HasDisplay(m.platform)
    ensures |events| > 0 && Step(m, events[0]).None? ==> r.None?
    ensures r.Some? ==> r.value.platform.content == m.platform.content
    decreases |events|
  {
    if |events| == 0 then Some(m)
    else
      match Step(m, events[0])
      case None => None
      case Some(m') => Run(m', events[1..])
  }

  /**
   * What every reachable manager satisfies: broadcasting implies a running
   * mixer, the outputs keep their types and track 0, the screen output
   * only ever holds a valid, complete, uncompressed sample, the microphone
   * output only a valid one, and the mixer has only received valid samples.
   */
  predicate Invariant(m: Manager) {
    && HasDisplay(m.platform)
    && (m.isBroadcasting ==> m.mixer.isRunning)
    && m.screenOutput.outputType == Screen && m.screenOutput.track == 0
    && m.microphoneOutput.outputType == Microphone && m.microphoneOutput.track == 0
    && (m.screenOutput.buffered.Some? ==> Route(Screen, m.screenOutput.buffered.value) == Forwarded)
    && (m.microphoneOutput.buffered.Some? ==> m.microphoneOutput.buffered.value.isValid)
    && (forall i :: 0 <= i < |m.mixer.appended| ==> m.mixer.appended[i].buffer.isValid)
  }

  lemma StepPreservesInvariant(m: Manager, e: Event)
    requires Invariant(m)
    ensures Step(m, e).Some? ==> Invariant(Step(m, e).value)
  {
    match e
    case Toggle(calls) => ToggleKeepsInvariant(m, calls);
    case SampleArrives(w, b) => SampleKeepsInvariant(m, w, b);
    case ConsumerTakes(w) => ConsumeKeepsInvariant(m, w);
    case _ =>
  }

  lemma ToggleKeepsInvariant(m: Manager, calls: CallResults)
    requires Invariant(m)
    ensures Invariant(ToggleBroadcast(m, calls))
  {
  }

  /** A sample an output accepts has passed that output's checks. */
  lemma SampleKeepsInvariant(m: Manager, w: OutputSelector, b: SampleBuffer)
    requires Invariant(m)
    ensures OnSample(m, w, b).Some? ==> Invariant(OnSample(m, w, b).value)
  {
  }

  /** The consumer only ever hands the mixer a sample its output accepted. */
  lemma ConsumeKeepsInvariant(m: Manager, w: OutputSelector)
    requires Invariant(m)
    ensures Invariant(OnConsume(m, w))
  {
    var o := OutputOf(m, w);
    assert o.buffered.Some? ==> o.buffered.value.isValid;
  }

  /** Running two stretches of events is running the second from where the first ended; a failure anywhere fails the whole. */
  lemma {:induction false} RunConcat(m: Manager, a: seq<Event>, b: seq<Event>)
    requires HasDisplay(m.platform)
    ensures Run(m, a + b) == match Run(m, a) case None => None case Some(m') => Run(m', b)
    decreases |a|
  {
    if |a| == 0 {
      assert a + b == b;
    } else {
      assert (a + b)[0] == a[0] && (a + b)[1..] == a[1..] + b;
      match Step(m, a[0])
      case None =>
      case Some(m') => RunConcat(m', a[1..], b);
    }
  }

  /** Only a compressed screen sample makes a step fail. */
  lemma StepFailsOnlyOnPrecondition(m: Manager, e: Event)
    requires HasDisplay(m.platform)
    ensures Step(m, e).None? <==> e.SampleArrives? && Route(OutputOf(m, e.output).outputType, e.buffer) == PreconditionFailure
  {
  }

  /**
   * Only a system change touches the platform, and it replaces the default
   * microphone and the scale factor and nothing else: the manager's
   * settings, stream and outputs wait for the next derivation.
   */
  lemma StepKeepsPlatform(m: Manager, e: Event)
    requires HasDisplay(m.platform)
    ensures Step(m, e).Some? && !e.SystemChanged? ==> Step(m, e).value.platform == m.platform
    ensures e.SystemChanged? ==>
      && Step(m, e).Some?
      && Step(m, e).value.platform.defaultMicrophoneID == e.defaultMicrophoneID
      && Step(m, e).value.platform.scaleFactor == e.scaleFactor
      && Step(m, e).value.platform.(defaultMicrophoneID := m.platform.defaultMicrophoneID, scaleFactor := m.platform.scaleFactor) == m.platform
      && Step(m, e).value.(platform := m.platform) == m
  {
  }

  /** Every event only appends to the effect log: calls once made are never taken back. */
  lemma StepAppendsEffects(m: Manager, e: Event)
    requires HasDisplay(m.platform)
    ensures Step(m, e).Some? ==> m.effects <= Step(m, e).value.effects
  {
    match e
    case Toggle(calls) =>
      var r := ToggleBroadcast(m, calls);
      assert r.effects[..|m.effects|] == m.effects;
    case _ =>
  }

  /** Over any run, the effect log of the start is a prefix of the one at the end. */
  lemma {:induction false} RunAppendsEffects(m: Manager, events: seq<Event>)
    requires HasDisplay(m.platform)
    ensures Run(m, events).Some? ==> m.effects <= Run(m, events).value.effects
    decreases |events|
  {
    if |events| > 0 {
      StepAppendsEffects(m, events[0]);
      if Step(m, events[0]).Some? {
        RunAppendsEffects(Step(m, events[0]).value, events[1..]);
      }
    }
  }

  lemma {:induction false} RunPreservesInvariant(m: Manager, events: seq<Event>)
    requires Invariant(m)
    ensures Run(m, events).Some? ==> Invariant(Run(m, events).value)
    decreases |events|
  {
    if |events| > 0 {
      StepPreservesInvariant(m, events[0]);
      if Step(m, events[0]).Some? {
        RunPreservesInvariant(Step(m, events[0]).value, events[1..]);
      }
    }
  }

  /**
   * Without a toggle a stopped mixer stays stopped and receives nothing:
   * every sample the consumers take meanwhile is discarded.
   */
  lemma {:induction false} StoppedMixerDiscardsSamples(m: Manager, events: seq<Event>)
    requires HasDisplay(m.platform) && !m.mixer.isRunning
    requires forall i :: 0 <= i < |events| ==> !events[i].Toggle?
    ensures Run(m, events).Some? ==> Run(m, events).value.mixer == m.mixer
    decreases |events|
  {
    if |events| > 0 {
      var next := Step(m, events[0]);
      if next.Some? {
        assert next.value.mixer == m.mixer;
        StoppedMixerDiscardsSamples(next.value, events[1..]);
      }
    }
  }

  /** An event that only concerns output `w` and passes its precondition for samples of type `t`. */
  predicate FeedsOutput(w: OutputSelector, t: OutputType, e: Event) {
    || (e.SampleArrives? && e.output == w && Route(t, e.buffer) != PreconditionFailure)
    || (e.ConsumerTakes? && e.output == w)
  }

  /** The step one event makes on output `w`'s newest-1 stream: a forwarded sample is yielded, a consumer turn reads. */
  function EventOps(t: OutputType, e: Event): (ops: seq<NewestChannel.Op<SampleBuffer>>)
    ensures |ops| <= 1
  {
    if e.SampleArrives? && Route(t, e.buffer) == Forwarded then [NewestChannel.Yield(e.buffer)]
    else if e.ConsumerTakes? then [NewestChannel.Next]
    else []
  }

  /** The steps a run of events makes on the output's newest-1 stream. */
  function ChannelOps(t: OutputType, events: seq<Event>): (ops: seq<NewestChannel.Op<SampleBuffer>>)
    ensures |ops| <= |events|
    decreases |events|
  {
    if |events| == 0 then [] else EventOps(t, events[0]) + ChannelOps(t, events[1..])
  }

  /** Driving the output through two stretches of steps is driving it through both in turn. */
  lemma {:induction false} DriveConcat(o: StreamOutput, mixer: MediaMixer, a: seq<NewestChannel.Op<SampleBuffer>>, b: seq<NewestChannel.Op<SampleBuffer>>)
    ensures Drive(o, mixer, a + b) == Drive(Drive(o, mixer, a).0, Drive(o, mixer, a).1, b)
    decreases |a|
  {
    if |a| > 0 {
      assert (a + b)[0] == a[0] && (a + b)[1..] == a[1..] + b;
      match a[0]
      case Yield(x) => DriveConcat(o.(buffered := Some(x)), mixer, a[1..], b);
      case Next =>
        var (o', mixer') := Consume(o, mixer);
        DriveConcat(o', mixer', a[1..], b);
    } else {
      assert a + b == b;
    }
  }

  /** One event for output `w` is its buffer and consumer driven by that event's stream steps. */
  lemma StepDrivesOutput(m: Manager, w: OutputSelector, e: Event)
    requires HasDisplay(m.platform)
    requires FeedsOutput(w, OutputOf(m, w).outputType, e)
    ensures var (o', mixer') := Drive(OutputOf(m, w), m.mixer, EventOps(OutputOf(m, w).outputType, e));
            Step(m, e) == Some(WithOutput(m, w, o').(mixer := mixer'))
  {
  }

  /** A run of such events is the output's buffer and consumer driven by those stream steps. */
  lemma {:induction false} RunDrivesOutput(m: Manager, w: OutputSelector, events: seq<Event>)
    requires HasDisplay(m.platform)
    requires forall i :: 0 <= i < |events| ==> FeedsOutput(w, OutputOf(m, w).outputType, events[i])
    ensures var (o', mixer') := Drive(OutputOf(m, w), m.mixer, ChannelOps(OutputOf(m, w).outputType, events));
            Run(m, events) == Some(WithOutput(m, w, o').(mixer := mixer'))
    decreases |events|
  {
    var o := OutputOf(m, w);
    if |events| > 0 {
      var t := o.outputType;
      StepDrivesOutput(m, w, events[0]);
      var (o1, mixer1) := Drive(o, m.mixer, EventOps(t, events[0]));
      var m' := WithOutput(m, w, o1).(mixer := mixer1);
      assert OutputOf(m', w) == o1 && m'.mixer == mixer1;
      assert o1.outputType == t;
      RunDrivesOutput(m', w, events[1..]);
      DriveConcat(o, m.mixer, EventOps(t, events[0]), ChannelOps(t, events[1..]));
      var (o2, mixer2) := Drive(o1, mixer1, ChannelOps(t, events[1..]));
      assert WithOutput(m', w, o2).(mixer := mixer2) == WithOutput(m, w, o2).(mixer := mixer2);
    }
  }

  /**
   * Samples arriving at one output and its consumer's turns, with no other
   * event between them, hand the mixer exactly what the output's newest-1
   * stream delivers of the forwarded samples while it runs, on the
   * output's track, and nothing while it is stopped.
   */
  lemma OutputFeedsMixerAsChannelDelivers(m: Manager, w: OutputSelector, events: seq<Event>)
    requires HasDisplay(m.platform)
    requires forall i :: 0 <= i < |events| ==> FeedsOutput(w, OutputOf(m, w).outputType, events[i])
    ensures Run(m, events).Some?
    ensures var o := OutputOf(m, w);
            var out := NewestChannel.Run(o.buffered, ChannelOps(o.outputType, events));
            && Run(m, events).value.mixer.isRunning == m.mixer.isRunning
            && Run(m, events).value.mixer.appended
               == m.mixer.appended + (if m.mixer.isRunning then AsAppended(out.received, o.track) else [])
            && OutputOf(Run(m, events).value, w).buffered == out.buffered
  {
    var o := OutputOf(m, w);
    RunDrivesOutput(m, w, events);
    MixerGetsWhatChannelDelivers(o, m.mixer, ChannelOps(o.outputType, events));
  }

  // ---------------------------------------------------------------------------
  // Camera authorisation
  // ---------------------------------------------------------------------------

  /** `AVAuthorizationStatus`; `UnknownAuthorization` stands for cases added later. */
  datatype AuthorizationStatus = NotDetermined | Restricted | Denied | Authorized | UnknownAuthorization(raw: int)

  /** `authorizeCamera`: `accessGranted` is the user's answer to the prompt, asked only while undetermined. */
  function CameraIsAuthorized(status: AuthorizationStatus, accessGranted: bool): (r: bool)
    ensures r <==> status == Authorized || (status == NotDetermined && accessGranted)
  {
    match status
    case NotDetermined => accessGranted
    case Restricted => false
    case Denied => false
    case Authorized => true
    case UnknownAuthorization(_) => false
  }

  /** The answer to the prompt only matters while the status is undetermined. */
  lemma PromptOnlyWhileUndetermined(status: AuthorizationStatus, accessGranted: bool)
    requires status != NotDetermined
    ensures CameraIsAuthorized(status, accessGranted) == CameraIsAuthorized(status, !accessGranted)
  {
  }
}
