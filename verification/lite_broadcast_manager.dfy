/**
 * The ODCLite target's `BroadcastManager`: four toggles whose `didSet`
 * pushes either a new content filter or a new configuration to the
 * running capture stream, and a `toogleBroadcast` that does nothing.
 * The content filter is built from shareable content fetched afresh for
 * every update.
 */
module LiteBroadcastManager {
  import opened Wrappers
  import opened CaptureSettings

  /** What the manager reads from the system: a fresh `SCStreamConfiguration`, the default audio device's id, the app's bundle id. */
  datatype Platform = Platform(
    freshConfiguration: StreamConfiguration,
    defaultMicrophoneID: Option<string>,
    ownBundleID: Option<string>)

  datatype Manager = Manager(
    excludeAppFromStream: bool,
    captureSystemAudio: bool,
    captureMicrophone: bool,
    excludeAppAudio: bool,
    primaryStreamKey: string,
    platform: Platform,
    stream: CaptureStream)

  /** `streamConfiguration`: the three audio toggles copied in, the rest of the fresh configuration untouched. */
  function ConfigurationFor(m: Manager): (r: StreamConfiguration)
    ensures r.capturesAudio == m.captureSystemAudio
    ensures r.excludesCurrentProcessAudio == m.excludeAppAudio
    ensures r.captureMicrophone == m.captureMicrophone
    ensures IsFresh(m.platform.freshConfiguration)
        ==> r.microphoneCaptureDeviceID == (if m.captureMicrophone then m.platform.defaultMicrophoneID else None)
    ensures var f := m.platform.freshConfiguration;
            && r.width == f.width && r.height == f.height
            && r.minimumFrameInterval == f.minimumFrameInterval && r.queueDepth == f.queueDepth
  {
    var audio := m.platform.freshConfiguration.(
      capturesAudio := m.captureSystemAudio,
      excludesCurrentProcessAudio := m.excludeAppAudio);
    WithMicrophone(audio, m.captureMicrophone, m.platform.defaultMicrophoneID)
  }

  /** The configuration determines the three audio toggles it was built from. */
  lemma ConfigurationDeterminesAudioToggles(m1: Manager, m2: Manager)
    requires m1.platform == m2.platform
    requires ConfigurationFor(m1) == ConfigurationFor(m2)
    ensures m1.captureSystemAudio == m2.captureSystemAudio
    ensures m1.excludeAppAudio == m2.excludeAppAudio
    ensures m1.captureMicrophone == m2.captureMicrophone
  {
  }

  /** Neither the filter toggle nor the stream key has any bearing on the configuration. */
  lemma ConfigurationIgnoresFilterToggle(m: Manager, exclude: bool, key: string)
    ensures ConfigurationFor(m.(excludeAppFromStream := exclude, primaryStreamKey := key)) == ConfigurationFor(m)
  {
  }

  /**
   * `streamContentFilter`: None when fetching the shareable content throws;
   * otherwise the first display with the app's own applications excluded
   * when the toggle is on. The first display is force-unwrapped.
   */
  function ContentFilterFor(m: Manager, fetched: Option<ShareableContent>): (r: Option<ContentFilter>)
    requires fetched.Some? ==> |fetched.value.displays| > 0
    ensures r.None? <==> fetched.None?
    ensures r.Some? ==> r.value.display == fetched.value.displays[0] && r.value.exceptingWindows == []
    ensures r.Some? && !m.excludeAppFromStream ==> r.value.excludingApplications == []
    ensures r.Some? && m.excludeAppFromStream ==>
      forall a :: a in r.value.excludingApplications
             <==> a in fetched.value.applications && m.platform.ownBundleID == Some(a.bundleIdentifier)
  {
    match fetched
    case None => None
    case Some(content) =>
      Some(StreamContentFilter(content.displays[0], content.applications, m.excludeAppFromStream, m.platform.ownBundleID))
  }

  /** The manager once `configureManager` has created the stream from the initial toggles. */
  function Configured(p: Platform, content: ShareableContent): (m: Manager)
    requires |content.displays| > 0
    ensures m.excludeAppFromStream && m.captureSystemAudio && !m.captureMicrophone && !m.excludeAppAudio
    ensures m.stream.configuration.capturesAudio && !m.stream.configuration.excludesCurrentProcessAudio
    ensures m.stream.filter.excludingApplications == OwnApplications(content.applications, p.ownBundleID)
  {
    var m := Manager(true, true, false, false, "", p, CaptureStream(ContentFilter(content.displays[0], [], []), p.freshConfiguration));
    m.(stream := CaptureStream(ContentFilterFor(m, Some(content)).value, ConfigurationFor(m)))
  }

  datatype Setting = ExcludeAppFromStream | CaptureSystemAudio | CaptureMicrophone | ExcludeAppAudio

  datatype Update = ContentFilterUpdate | ConfigurationUpdate

  /** Which update a toggle's `didSet` starts. */
  function UpdateFor(s: Setting): (u: Update)
    ensures u == ContentFilterUpdate <==> s == ExcludeAppFromStream
  {
    match s
    case ExcludeAppFromStream => ContentFilterUpdate
    case CaptureSystemAudio => ConfigurationUpdate
    case CaptureMicrophone => ConfigurationUpdate
    case ExcludeAppAudio => ConfigurationUpdate
  }

  /** The current value of one toggle. */
  function SettingValue(m: Manager, s: Setting): bool {
    match s
    case ExcludeAppFromStream => m.excludeAppFromStream
    case CaptureSystemAudio => m.captureSystemAudio
    case CaptureMicrophone => m.captureMicrophone
    case ExcludeAppAudio => m.excludeAppAudio
  }

  /** The assignment a toggle's setter makes before its `didSet` runs. */
  function Assign(m: Manager, s: Setting, value: bool): (r: Manager)
    ensures r.platform == m.platform && r.stream == m.stream && r.primaryStreamKey == m.primaryStreamKey
    ensures SettingValue(r, s) == value
    ensures forall t :: t != s ==> SettingValue(r, t) == SettingValue(m, t)
  {
    match s
    case ExcludeAppFromStream => m.(excludeAppFromStream := value)
    case CaptureSystemAudio => m.(captureSystemAudio := value)
    case CaptureMicrophone => m.(captureMicrophone := value)
    case ExcludeAppAudio => m.(excludeAppAudio := value)
  }

  /** The outcome of the foreign calls in one update: the content fetch (filter updates only) and the stream's update call. */
  datatype UpdateCalls = UpdateCalls(fetched: Option<ShareableContent>, updateSucceeds: bool)

  /**
   * `updateStreamContentFilter` / `updateStreamConfiguration`: on success
   * the stream applies the value built from the current toggles; any
   * failure is logged and swallowed, and only the stream can change.
   */
  function PerformUpdate(m: Manager, u: Update, calls: UpdateCalls): (r: Manager)
    requires calls.fetched.Some? ==> |calls.fetched.value.displays| > 0
    ensures r.(stream := m.stream) == m
    ensures u == ConfigurationUpdate ==> r.stream.filter == m.stream.filter
    ensures u == ContentFilterUpdate ==> r.stream.configuration == m.stream.configuration
    ensures !calls.updateSucceeds ==> r == m
    ensures u == ContentFilterUpdate && calls.fetched.None? ==> r == m
    ensures u == ConfigurationUpdate && calls.updateSucceeds ==> r.stream.configuration == ConfigurationFor(m)
    ensures u == ContentFilterUpdate && calls.updateSucceeds && calls.fetched.Some?
        ==> r.stream.filter == ContentFilterFor(m, calls.fetched).value
  {
    match u
    case ConfigurationUpdate =>
      if calls.updateSucceeds then m.(stream := m.stream.(configuration := ConfigurationFor(m))) else m
    case ContentFilterUpdate =>
      match ContentFilterFor(m, calls.fetched)
      case None => m
      case Some(filter) => if calls.updateSucceeds then m.(stream := m.stream.(filter := filter)) else m
  }

  /** Setting a toggle: the assignment, then the one update its `didSet` starts. */
  function SetToggle(m: Manager, s: Setting, value: bool, calls: UpdateCalls): (r: Manager)
    requires calls.fetched.Some? ==> |calls.fetched.value.displays| > 0
    ensures SettingValue(r, s) == value
    ensures forall t :: t != s ==> SettingValue(r, t) == SettingValue(m, t)
    ensures r.platform == m.platform && r.primaryStreamKey == m.primaryStreamKey
    ensures s == ExcludeAppFromStream ==> r.stream.configuration == m.stream.configuration
    ensures s != ExcludeAppFromStream ==> r.stream.filter == m.stream.filter
    ensures !calls.updateSucceeds ==> r.stream == m.stream
    ensures s != ExcludeAppFromStream && calls.updateSucceeds ==> r.stream.configuration == ConfigurationFor(r)
    ensures s == ExcludeAppFromStream && calls.updateSucceeds && calls.fetched.Some?
        ==> r.stream.filter == ContentFilterFor(r, calls.fetched).value
  {
    PerformUpdate(Assign(m, s, value), UpdateFor(s), calls)
  }

  /**
   * The filter toggle only ever reaches the content filter, and the three
   * audio toggles only the configuration; a failed update leaves the
   * stream as it was.
   */
  lemma ToggleReachesOnlyItsTarget(m: Manager, s: Setting, value: bool, calls: UpdateCalls)
    requires calls.fetched.Some? ==> |calls.fetched.value.displays| > 0
    ensures s == ExcludeAppFromStream ==> SetToggle(m, s, value, calls).stream.configuration == m.stream.configuration
    ensures s != ExcludeAppFromStream ==> SetToggle(m, s, value, calls).stream.filter == m.stream.filter
    ensures !calls.updateSucceeds ==> SetToggle(m, s, value, calls).stream == m.stream
    ensures s != ExcludeAppFromStream && calls.updateSucceeds ==>
      SetToggle(m, s, value, calls).stream.configuration == ConfigurationFor(Assign(m, s, value))
  {
  }

  /** Turning the microphone on, with a successful update, makes the stream capture it. */
  lemma MicrophoneToggleReachesStream(m: Manager, calls: UpdateCalls)
    requires calls.updateSucceeds
    requires calls.fetched.Some? ==> |calls.fetched.value.displays| > 0
    ensures SetToggle(m, CaptureMicrophone, true, calls).stream.configuration.captureMicrophone
    ensures SetToggle(m, CaptureMicrophone, true, calls).stream.filter == m.stream.filter
  {
  }
}
