/**
 * The ScreenCaptureKit objects both broadcast managers build from the
 * user's toggles: the `SCStreamConfiguration` and the `SCContentFilter`,
 * and the capture stream that holds the ones currently in effect.
 */
module CaptureSettings {
  import opened Wrappers

  /** An `SCDisplay`, in points. */
  datatype Display = Display(width: int, height: int)

  /** An `SCRunningApplication`. */
  datatype RunningApplication = RunningApplication(bundleIdentifier: string, processID: int)

  /** An `SCShareableContent` snapshot. */
  datatype ShareableContent = ShareableContent(displays: seq<Display>, applications: seq<RunningApplication>)

  datatype Window = Window(windowID: nat)

  /** `SCContentFilter(display:excludingApplications:exceptingWindows:)`. */
  datatype ContentFilter = ContentFilter(
    display: Display,
    excludingApplications: seq<RunningApplication>,
    exceptingWindows: seq<Window>)

  datatype CMTime = CMTime(value: int, timescale: int)

  /** The fields of an `SCStreamConfiguration` the managers read or write. */
  datatype StreamConfiguration = StreamConfiguration(
    capturesAudio: bool,
    excludesCurrentProcessAudio: bool,
    captureMicrophone: bool,
    microphoneCaptureDeviceID: Option<string>,
    width: int,
    height: int,
    minimumFrameInterval: CMTime,
    queueDepth: int)

  /** A freshly made `SCStreamConfiguration()` has the microphone off and no microphone device. */
  predicate IsFresh(c: StreamConfiguration) {
    !c.captureMicrophone && c.microphoneCaptureDeviceID.None?
  }

  /** The filter and configuration a running `SCStream` currently applies. */
  datatype CaptureStream = CaptureStream(filter: ContentFilter, configuration: StreamConfiguration)

  /** The applications whose bundle identifier is the app's own (`Bundle.main.bundleIdentifier`, an optional). */
  function OwnApplications(apps: seq<RunningApplication>, ownBundleID: Option<string>): (r: seq<RunningApplication>)
    ensures |r| <= |apps|
    ensures forall a :: a in r <==> a in apps && ownBundleID == Some(a.bundleIdentifier)
    decreases |apps|
  {
    if |apps| == 0 then []
    else
      var rest := OwnApplications(apps[1..], ownBundleID);
      assert forall a :: a in apps <==> a == apps[0] || a in apps[1..];
      if ownBundleID == Some(apps[0].bundleIdentifier) then [apps[0]] + rest else rest
  }

  /** The exclusion list keeps the order in which the shareable content lists the applications. */
  lemma {:induction false} OwnApplicationsPreservesOrder(apps: seq<RunningApplication>, ownBundleID: Option<string>)
    ensures OwnApplications(apps, ownBundleID) == FilterInOrder(apps, ownBundleID)
    decreases |apps|
  {
    if |apps| > 0 {
      var init := apps[..|apps| - 1];
      assert apps == init + [apps[|apps| - 1]];
      OwnApplicationsAppend(init, apps[|apps| - 1], ownBundleID);
      OwnApplicationsPreservesOrder(init, ownBundleID);
    }
  }

  lemma {:induction false} OwnApplicationsAppend(apps: seq<RunningApplication>, x: RunningApplication, ownBundleID: Option<string>)
    ensures OwnApplications(apps + [x], ownBundleID)
         == OwnApplications(apps, ownBundleID) + (if ownBundleID == Some(x.bundleIdentifier) then [x] else [])
    decreases |apps|
  {
    if |apps| > 0 {
      assert (apps + [x])[1..] == apps[1..] + [x];
      OwnApplicationsAppend(apps[1..], x, ownBundleID);
    }
  }

  /** Reference: walk the list from the back, keeping the matching applications. */
  function FilterInOrder(apps: seq<RunningApplication>, ownBundleID: Option<string>): seq<RunningApplication>
    decreases |apps|
  {
    if |apps| == 0 then []
    else
      var init := FilterInOrder(apps[..|apps| - 1], ownBundleID);
      var last := apps[|apps| - 1];
      if ownBundleID == Some(last.bundleIdentifier) then init + [last] else init
  }

  /**
   * `streamContentFilter`: the given display, and either exactly the
   * app's own applications or none at all, with no excepted windows.
   */
  function StreamContentFilter(display: Display, apps: seq<RunningApplication>, excludeAppFromStream: bool, ownBundleID: Option<string>): (r: ContentFilter)
    ensures r.display == display
    ensures r.exceptingWindows == []
    ensures !excludeAppFromStream ==> r.excludingApplications == []
    ensures excludeAppFromStream ==>
      forall a :: a in r.excludingApplications <==> a in apps && ownBundleID == Some(a.bundleIdentifier)
  {
    ContentFilter(display, if excludeAppFromStream then OwnApplications(apps, ownBundleID) else [], [])
  }

  /**
   * The microphone block both managers share: the flag is copied only when
   * it differs from the configuration's, and the default audio device's
   * id is assigned only in that branch and only when the flag is on.
   */
  function WithMicrophone(c: StreamConfiguration, captureMicrophone: bool, defaultMicrophoneID: Option<string>): (r: StreamConfiguration)
    ensures r.captureMicrophone == captureMicrophone
    ensures r.(captureMicrophone := c.captureMicrophone, microphoneCaptureDeviceID := c.microphoneCaptureDeviceID) == c
    ensures r.microphoneCaptureDeviceID != c.microphoneCaptureDeviceID
        ==> captureMicrophone && !c.captureMicrophone && r.microphoneCaptureDeviceID == defaultMicrophoneID
  {
    if c.captureMicrophone != captureMicrophone then
      var switched := c.(captureMicrophone := captureMicrophone);
      if captureMicrophone then switched.(microphoneCaptureDeviceID := defaultMicrophoneID) else switched
    else c
  }

  /** On a fresh configuration the microphone device is set exactly when the flag is on (to the default device). */
  lemma FreshMicrophone(c: StreamConfiguration, captureMicrophone: bool, defaultMicrophoneID: Option<string>)
    requires IsFresh(c)
    ensures WithMicrophone(c, captureMicrophone, defaultMicrophoneID).microphoneCaptureDeviceID
         == (if captureMicrophone then defaultMicrophoneID else None)
  {
  }
}
