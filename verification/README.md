# ODC Studio Lite, modelled in Dafny

This project models the core of ODC Studio Lite, a macOS menu-bar app. The app captures the screen and the microphone with ScreenCaptureKit and broadcasts them to Twitch over RTMPS.

The model covers these parts:

- **Sample buffers and frame status** (`SampleBuffers`, `VideoMetadata`, `CapturedFrames`):
  - how `SCFrameStatus` is read from the first sample attachment of a `CMSampleBuffer`;
  - the two `SCVideoMetadata` initialisers;
  - the throwing, failable `CapturedFrame` initialiser.
- **The newest-1 async stream** (`NewestChannel`): the `AsyncStream` with `.bufferingNewest(1)` that three producers hand their values through: the App's `StreamOutput`, `PreferredCameraProvider` and the observer inside `PreferredCameraController`. The RTMP status stream is folded as a plain list of events, and `PreferredCameraObserver` calls back through `onNext` instead. It is a one-element slot driven by a trace of yields and completed reads. A reference definition states what a reader receives.
- **The broadcasting app's stream outputs** (`StreamOutputs`):
  - which samples are forwarded, dropped, or hit the compressed-sample precondition;
  - how the consumer task appends them to the `MediaMixer` only while it runs.
- **The capture settings** (`CaptureSettings`): the `SCStreamConfiguration` and `SCContentFilter` derived from the user's toggles, with the app's own applications filtered out by bundle identifier.
- **The broadcasting app's `BroadcastManager`** (`BroadcastManager`):
  - the `isBroadcasting` state machine driven by `toogleBroadcast` and by the RTMP status stream;
  - the settings `didSet` updates;
  - an invariant kept over any run of events;
  - camera authorisation.
- **The ODCLite target's `BroadcastManager`** (`LiteBroadcastManager`): four toggles, each of which pushes a content-filter or configuration update to the stream.
- **The preferred-camera observers**: key-value observation of `systemPreferredCamera` on the capture-device class, de-duplicated by `uniqueID`. There are three of them:
  - `PreferredCameraProvider` yields `CaptureDevice`s into a newest-1 stream;
  - `PreferredCameraObserver` calls back with the raw source;
  - `PreferredCameraController` adds a setter for `userPreferredCamera`.
- **`CameraControl`** (`CameraControls`): the selected camera, which is forwarded on every assignment, and the device list.

Calls into ScreenCaptureKit, HaishinKit and AVFoundation are modelled like this:

- whether a throwing call (connect, publish, close, stream updates, the shareable-content fetch) succeeds is an input;
- what the system reports (displays, applications, the bundle identifier, the default microphone, the scale factor, the authorisation status) is an input;
- the calls the manager makes are recorded in order as `Effect`s.

A `precondition` failure is a distinct outcome (`None`, `PreconditionFailure`). It is not a crash hidden behind a `requires`.

Behaviours of the code worth stating explicitly:

- A status event that ends the broadcast only clears `isBroadcasting`. The mixer keeps running and the connection is not closed (App/Model/BroadcastManager.swift:157-161; `BroadcastManager.StatusLossKeepsMixerRunning`).
- Toggling while broadcasting stops the broadcast. It does not ignore the call (App/Model/BroadcastManager.swift:271-276).
- Both sample outputs use the default track 0 (App/Model/BroadcastManager.swift:137-138, 349).
- The status guard reads the status's own `level`, not the level of the known code (App/Model/BroadcastManager.swift:157).
- In both targets, the configuration starts from a fresh `SCStreamConfiguration`. It sets `captureMicrophone` only when that differs from the fresh value, and it picks the default microphone only in that branch. `CaptureSettings.WithMicrophone` keeps this structure.

## Model

| member | source | states |
|---|---|---|
| SampleBuffers.FrameStatusFromRaw | ODC/Model/CapturedFrame.swift:30 | `SCFrameStatus(rawValue:)` never gives nil: every integer becomes the status with that raw value, one of the six named cases exactly when it lies in 0 to 5 |
| SampleBuffers.FirstFrameStatus | odc-studio-lite-package/Sources/Capture/SCVideoMetadata.swift:16-17 | the status is nil exactly when there is no first attachment, it has no status key or the value is not an integer; otherwise the status returned is the stored one, named or not |
| SampleBuffers.FrameStatusRoundTrip | ODCTests/CapturedFrameTests.swift:97-103 | a status written as the first attachment is read back unchanged, whatever attachments follow |
| VideoMetadata.FromSampleBuffer | odc-studio-lite-package/Sources/Capture/SCVideoMetadata.swift:15-22 | metadata exists exactly when the first attachment stores a valid status, and carries that status |
| VideoMetadata.FromAttachments | ODCLite/Model/SCVideoMetadata.swift:15-20 | the same, for the initialiser that takes the attachments array |
| VideoMetadata.MetadataRoundTrip | odc-studio-lite-package/Tests/CaptureTests/SCVideoMetadataTests.swift:13-27 | a buffer built with any status yields metadata with that status, through both initialisers |
| VideoMetadata.OnlyFirstAttachmentConsulted | odc-studio-lite-package/Sources/Capture/SCVideoMetadata.swift:16 | attachments after the first never change the result |
| VideoMetadata.MetadataNilCases | ODCLite/Model/SCVideoMetadata.swift:16-18 | the metadata is nil exactly for no attachments, a missing key or a non-integer value, and both initialisers agree on such attachments |
| VideoMetadata.UnnamedStatusGivesMetadata | ODCLite/Model/SCVideoMetadata.swift:16-18 | an integer outside 0 to 5 still gives metadata, whose status is none of the six named cases |
| VideoMetadata.EmptyBufferHasNoMetadata | odc-studio-lite-package/Tests/CaptureTests/SCVideoMetadataTests.swift:29-33 | a buffer without attachments has no metadata |
| CapturedFrames.FromSampleBuffer | ODC/Model/CapturedFrame.swift:25-47 | the guards apply in order (validity, status, completeness, image buffer, surface). Each error is thrown exactly when its guard is the first to fail, nil exactly for a readable status other than complete, and a frame otherwise, holding the buffer's surface |
| CapturedFrames.ValidityCheckedFirst | ODC/Model/CapturedFrame.swift:26-28 | an invalid buffer throws `invalidSMSampleBuffer` whatever its attachments and image buffer |
| CapturedFrames.IncompleteIgnoresImageBuffer | ODC/Model/CapturedFrame.swift:34-36 | a readable status other than complete gives nil with or without an image buffer |
| CapturedFrames.MissingStatusIgnoresImageBuffer | ODC/Model/CapturedFrame.swift:30-32 | a valid buffer without a readable status throws `noStreamFrameInfo` whatever its image buffer |
| CapturedFrames.UnnamedStatusGivesNoFrame | ODC/Model/CapturedFrame.swift:30-36 | a status outside the six named cases passes the status guard and fails the completeness guard: nil, not a thrown error, whatever the image buffer |
| CapturedFrames.TestScenarios | ODCTests/CapturedFrameTests.swift:22-76 | test example, covered for all inputs by `CapturedFrames.FromSampleBuffer`: the test suite's cases, a complete frame keeps its surface, every other status gives nil, a missing surface, image buffer or attachment throws the matching error |
| NewestChannel.Run | odc-studio-lite-package/Sources/AudioVideoKit/PreferredCameraProvider.swift:26-29 | after a run the slot holds the last element yielded, or nothing if the last operation was a read; a run never delivers more elements than it has operations |
| NewestChannel.RunMatchesReference | App/Model/BroadcastManager.swift:353-354 | what a reader receives equals an independent definition: the element already buffered if the first operation is a read, then, for every read that directly follows a yield, that yield's element, so an overtaken element is never delivered and none is delivered twice |
| NewestChannel.LateReaderSeesNewest | odc-studio-lite-package/Tests/AudioVideoKitTests/PreferredCameraProviderTests.swift:64-76 | a reader that starts after any number of yields receives only the last one |
| NewestChannel.YieldsOnlyTakenAtEnd | App/Model/BroadcastManager.swift:353-354 | by the reference definition, the same late reader receives only the last element |
| NewestChannel.EagerReaderSeesAll | App/Model/BroadcastManager.swift:357-361 | a reader that takes each element before the next is yielded receives all of them in order, and leaves the slot empty |
| StreamOutputs.Route | App/Model/BroadcastManager.swift:372-396 | a sample is forwarded exactly when it is valid and is either a microphone sample or a complete, uncompressed screen sample. A valid, complete screen sample that is compressed or has no format description fails the precondition. Everything else is dropped |
| StreamOutputs.ScreenSamplesNeedCompleteStatus | App/Model/BroadcastManager.swift:378-381 | a valid, uncompressed screen sample is forwarded exactly when its status is complete |
| StreamOutputs.DidOutputSampleBuffer | App/Model/BroadcastManager.swift:372-396 | a forwarded sample replaces the buffered one, a dropped one changes nothing, and only the precondition aborts |
| StreamOutputs.Consume | App/Model/BroadcastManager.swift:357-361 | the consumer takes the buffered sample and appends it on the output's track only while the mixer runs; a stopped mixer is unchanged |
| StreamOutputs.MixerGetsWhatChannelDelivers | App/Model/BroadcastManager.swift:349-366 | over any run of yields and reads, a running mixer receives exactly what the newest-1 stream delivers, in order and on the output's track, and a stopped one receives nothing |
| CaptureSettings.OwnApplications | App/Model/BroadcastManager.swift:90-94 | the applications kept are exactly those whose bundle identifier equals the app's own, and the app's identifier may be nil, which matches nothing |
| CaptureSettings.OwnApplicationsPreservesOrder | ODCLite/Model/BroadcastManager.swift:76-77 | the filter keeps the applications in their original order, matching a filter defined from the back |
| CaptureSettings.StreamContentFilter | ODCLite/Model/BroadcastManager.swift:72-84 | the filter captures the given display without excepted windows, and excludes the app's own applications exactly when the toggle is on |
| CaptureSettings.WithMicrophone | App/Model/BroadcastManager.swift:110-116 | the microphone flag is set to the toggle and nothing else changes, except the device id. The device id changes only when the flag turns on from off, and then it becomes the default microphone's |
| CaptureSettings.FreshMicrophone | ODCLite/Model/BroadcastManager.swift:93-99 | on a fresh configuration, the device id is the default microphone's exactly when the microphone is captured |
| BroadcastManager.ConfigurationFor | App/Model/BroadcastManager.swift:105-130 | app audio is excluded; the microphone follows the toggle; the size is the first display's times the scale factor; frames come at most 60 per second; the queue holds 5 frames |
| BroadcastManager.ConfigurationMicrophoneOnly | App/Model/BroadcastManager.swift:110-116 | the two configurations for the microphone on and off agree on everything but the microphone flag and device id, and they differ exactly when the toggles do |
| BroadcastManager.ContentFilterFor | App/Model/BroadcastManager.swift:88-102 | the first display is captured, and the app's own applications are excluded exactly when the toggle is on |
| BroadcastManager.Configured | App/Model/BroadcastManager.swift:254-267 | after `configureManager` the defaults hold: nothing is broadcast, the mixer is stopped, and the app is excluded from the stream. The manager satisfies the invariant |
| BroadcastManager.PublishName | App/Model/BroadcastManager.swift:293 | the publish name is the stream key followed by `?bandwidthtest=true` when the test is on, and by nothing otherwise |
| BroadcastManager.SplitPublishName | App/Model/BroadcastManager.swift:293 | reading a name back: the flag is set exactly when the name ends with `?bandwidthtest=true`, and the key followed by that query, when the flag is set, rebuilds the name |
| BroadcastManager.PublishNameRoundTrip | App/Model/BroadcastManager.swift:293 | for a stream key that does not itself end with the query, the key and the flag are recovered from the publish name |
| BroadcastManager.PublishNameInjective | App/Model/BroadcastManager.swift:293 | among such keys, two publish names are equal exactly when both the keys and the flags are |
| BroadcastManager.PublishNameAmbiguous | App/Model/BroadcastManager.swift:293 | without that condition the name does not determine the flag: a key ending with the query and the test off publishes the same name as its prefix with the test on |
| BroadcastManager.ToggleBroadcast | App/Model/BroadcastManager.swift:269-310 | a toggle while broadcasting always ends the broadcast and stops the mixer. Otherwise broadcasting afterwards holds exactly when connect and publish both returned. Nothing but the flag, the mixer's running state and the call log changes |
| BroadcastManager.ToggleEffects | App/Model/BroadcastManager.swift:271-309 | the calls made on each of the four paths (stop, connect throws, publish throws, success), in order, with the Twitch ingest URL, 1080p at 6 Mbit/s constant bit rate, and 60 fps |
| BroadcastManager.MixerStartsOnlyAfterConnectAndPublish | App/Model/BroadcastManager.swift:277-299 | a toggle starts the mixer exactly when it was not broadcasting and both connect and publish returned |
| BroadcastManager.StopIgnoresCloseOutcome | App/Model/BroadcastManager.swift:271-276 | stopping gives the same manager whether or not `close` throws |
| BroadcastManager.StartThenStop | App/Model/BroadcastManager.swift:269-310 | a successful start followed by a stop leaves the manager idle with the mixer stopped |
| BroadcastManager.OnConnectionStatus | App/Model/BroadcastManager.swift:141-162 | after a status event the app is broadcasting exactly when it was before and the event is a non-error `connectSuccess`; nothing else changes |
| BroadcastManager.OnConnectionStatuses | App/Model/BroadcastManager.swift:141-162 | over a stretch of events, broadcasting survives exactly when every event keeps it |
| BroadcastManager.StatusLossKeepsMixerRunning | App/Model/BroadcastManager.swift:157-161 | an event that ends the broadcast leaves a running mixer running and does not close the connection |
| BroadcastManager.SetExcludeAppFromStream | App/Model/BroadcastManager.swift:24-30 | the toggle sends one content-filter update built from its new value. The stream takes it only if the update succeeds. Configuration, broadcast and mixer are untouched. Nothing else about the manager changes |
| BroadcastManager.SetCaptureMicrophone | App/Model/BroadcastManager.swift:32-38 | the toggle sends one configuration update whose microphone flag is its new value. The stream takes it only if the update succeeds. Filter, broadcast and mixer are untouched. Nothing else about the manager changes |
| BroadcastManager.Step | App/Model/BroadcastManager.swift:75-86 | no event changes the shareable content that `configureManager` cached, so the first display stays available |
| BroadcastManager.StepFailsOnlyOnPrecondition | App/Model/BroadcastManager.swift:385-388 | a step fails exactly when a compressed screen sample reaches the precondition |
| BroadcastManager.StepKeepsPlatform | App/Model/BroadcastManager.swift:84-86 | only a system change touches the platform; it replaces the default microphone and the scale factor, which every later derivation reads afresh, and changes nothing else |
| BroadcastManager.StepAppendsEffects | App/Model/BroadcastManager.swift:24-42 | every event only appends to the log of calls made |
| BroadcastManager.Run | App/Model/BroadcastManager.swift:75-82 | a run whose first step fails fails, and a run that completes keeps the cached content |
| BroadcastManager.RunConcat | App/Model/BroadcastManager.swift:349-396 | a run of two stretches of events is the first stretch followed by the second from where it ended, so a failure at any event fails the whole run |
| BroadcastManager.RunAppendsEffects | App/Model/BroadcastManager.swift:269-318 | over any run, the log of calls at the start is a prefix of the log at the end |
| BroadcastManager.StepPreservesInvariant | App/Model/BroadcastManager.swift:349-396 | every event keeps the invariant: broadcasting implies a running mixer, both outputs keep their type and track 0, buffered samples passed their output's checks, and only valid samples reach the mixer |
| BroadcastManager.ToggleKeepsInvariant | App/Model/BroadcastManager.swift:269-310 | a toggle keeps the invariant: it starts the mixer whenever it leaves the app broadcasting |
| BroadcastManager.SampleKeepsInvariant | App/Model/BroadcastManager.swift:372-396 | a sample an output accepts has passed that output's checks |
| BroadcastManager.ConsumeKeepsInvariant | App/Model/BroadcastManager.swift:357-361 | the consumer only hands the mixer samples that its output accepted |
| BroadcastManager.RunPreservesInvariant | App/Model/BroadcastManager.swift:269-396 | the invariant holds after any run of events that hits no precondition |
| BroadcastManager.StoppedMixerDiscardsSamples | App/Model/BroadcastManager.swift:357-361 | without a toggle, a stopped mixer stays stopped and receives nothing, whatever samples arrive and are consumed |
| BroadcastManager.OnSample | App/Model/BroadcastManager.swift:374-396 | the output registered for the type takes the sample: a forwarded sample replaces its buffered one, a dropped one changes nothing, the other output and the rest of the manager are untouched, and only a compressed screen sample fails |
| BroadcastManager.OnConsume | App/Model/BroadcastManager.swift:357-361 | one consumer turn empties the output's buffer and appends the taken sample on the output's track only while the mixer runs |
| BroadcastManager.StepDrivesOutput | App/Model/BroadcastManager.swift:357-389 | one sample or consumer event on an output acts like the corresponding yield or read on its newest-1 stream |
| BroadcastManager.RunDrivesOutput | App/Model/BroadcastManager.swift:349-389 | a run of sample and consumer events on one output never fails and acts like its stream steps driving the output and the mixer |
| BroadcastManager.OutputFeedsMixerAsChannelDelivers | App/Model/BroadcastManager.swift:349-389 | during such a run a running mixer receives exactly what the output's newest-1 stream delivers of the forwarded samples, on the output's track, a stopped one receives nothing, and the output keeps the stream's buffer |
| BroadcastManager.CameraIsAuthorized | App/Model/BroadcastManager.swift:239-252 | the camera is authorised exactly when the status is authorised, or undetermined and the user grants access |
| BroadcastManager.PromptOnlyWhileUndetermined | App/Model/BroadcastManager.swift:242-251 | the user's answer matters only while the status is undetermined |
| LiteBroadcastManager.ConfigurationFor | ODCLite/Model/BroadcastManager.swift:87-102 | system audio, app-audio exclusion and the microphone follow their toggles. On a fresh configuration the default microphone is picked exactly when the microphone is captured. Size, frame interval and queue depth keep the fresh values |
| LiteBroadcastManager.ConfigurationDeterminesAudioToggles | ODCLite/Model/BroadcastManager.swift:87-102 | two configurations built on the same platform are equal only if the three audio toggles are equal |
| LiteBroadcastManager.ConfigurationIgnoresFilterToggle | ODCLite/Model/BroadcastManager.swift:87-102 | the configuration depends neither on the exclusion toggle nor on the stream key |
| LiteBroadcastManager.ContentFilterFor | ODCLite/Model/BroadcastManager.swift:72-84 | no filter when the content fetch throws; otherwise the first display, with the app's own applications excluded exactly when the toggle is on |
| LiteBroadcastManager.Configured | ODCLite/Model/BroadcastManager.swift:29-61 | the defaults: app excluded, system audio captured, microphone off, app audio kept; the stream starts from them |
| LiteBroadcastManager.UpdateFor | ODCLite/Model/BroadcastManager.swift:29-59 | only the exclusion toggle updates the content filter; the three audio toggles update the configuration |
| LiteBroadcastManager.Assign | ODCLite/Model/BroadcastManager.swift:29-59 | the chosen toggle takes the new value, the other three keep theirs, and the stream, the platform and the key are left alone |
| LiteBroadcastManager.PerformUpdate | ODCLite/Model/BroadcastManager.swift:124-138 | an update changes only the stream, and only the part it targets. A failed update or fetch leaves everything unchanged. A successful one installs the freshly derived value |
| LiteBroadcastManager.SetToggle | ODCLite/Model/BroadcastManager.swift:29-59 | the toggle takes its value and the others keep theirs; the filter toggle reaches only the filter and the audio toggles only the configuration; a failed update leaves the stream alone, and a successful one installs the value derived from the new toggles |
| LiteBroadcastManager.ToggleReachesOnlyItsTarget | ODCLite/Model/BroadcastManager.swift:29-59 | the exclusion toggle never touches the configuration, and the audio toggles never touch the filter. A failed update leaves the stream as it was. A successful audio update installs the configuration for the new toggles |
| LiteBroadcastManager.MicrophoneToggleReachesStream | ODCLite/Model/BroadcastManager.swift:45-51 | turning the microphone on reaches the stream's configuration when the update succeeds, whether or not the shareable content is fetched, and leaves the stream's filter alone |
| KeyValueObserving.RegisteredObservesOnlySystemCamera | odc-studio-lite-package/Sources/AudioVideoKit/PreferredCameraProvider.swift:32-36 | after `init` the observer watches "systemPreferredCamera" and no other key path; after `deinit` it watches nothing |
| KeyValueObserving.AsCaptureDevice | odc-studio-lite-package/Sources/AudioVideoKit/PreferredCameraProvider.swift:51-53 | a nil source gives nil; any other gives a device with the source's id and an empty name |
| KeyValueObserving.AsCaptureDeviceKeepsIdentity | odc-studio-lite-package/Sources/AudioVideoKit/PreferredCameraProvider.swift:50-53 | two sources map to the same device exactly when their `uniqueID`s (or nils) agree |
| KeyValueObserving.Assignments | odc-studio-lite-package/Tests/AudioVideoKitTests/PreferredCameraProviderTests.swift:40-62 | successive assignments notify changes that pair each new value with the value before it |
| PreferredCameraProvider.Init | odc-studio-lite-package/Sources/AudioVideoKit/PreferredCameraProvider.swift:25-33 | `init` registers one observer on "systemPreferredCamera" with old and new values and no context, and the stream starts empty |
| PreferredCameraProvider.Deinit | odc-studio-lite-package/Sources/AudioVideoKit/PreferredCameraProvider.swift:35-37 | `deinit` removes that observer without context |
| PreferredCameraProvider.RegistrationLifecycle | odc-studio-lite-package/Tests/AudioVideoKitTests/PreferredCameraProviderTests.swift:20-38 | creating and releasing a provider records exactly one add and then one remove |
| PreferredCameraProvider.ObserveValue | odc-studio-lite-package/Sources/AudioVideoKit/PreferredCameraProvider.swift:39-56 | any key path but "systemPreferredCamera" fails the precondition. A device is yielded exactly when the old and new `uniqueID`s differ, and it is the new source's, nil included |
| PreferredCameraProvider.Notify | odc-studio-lite-package/Sources/AudioVideoKit/PreferredCameraProvider.swift:32-56 | changes of a key path the provider does not observe leave it untouched; an observed change fails exactly on the precondition, leaves the provider as it was when the `uniqueID` does not change, and otherwise replaces the buffered value by the emitted device; registrations never change |
| PreferredCameraProvider.NotifyAll | odc-studio-lite-package/Sources/AudioVideoKit/PreferredCameraProvider.swift:39-56 | a run of changes delivered one after another keeps the registrations whenever it completes |
| PreferredCameraProvider.NotifyAllBuffersLastEmission | odc-studio-lite-package/Sources/AudioVideoKit/PreferredCameraProvider.swift:26-29 | a provider observing the system camera never fails on a run of its changes, keeps its registrations, and buffers the last device emitted, or its earlier buffer when nothing was emitted |
| PreferredCameraProvider.ProviderBufferIsChannelBuffer | odc-studio-lite-package/Sources/AudioVideoKit/PreferredCameraProvider.swift:50-54 | from any buffer, the live provider's buffer after a run of changes is the newest-1 stream's buffer after yielding the emitted devices |
| PreferredCameraProvider.LiveProviderNeverFails | odc-studio-lite-package/Tests/AudioVideoKitTests/PreferredCameraProviderTests.swift:101-121 | a live provider never hits the precondition, and "userPreferredCamera" changes never reach it |
| PreferredCameraProvider.EmissionsFollowIdentity | odc-studio-lite-package/Sources/AudioVideoKit/PreferredCameraProvider.swift:50-55 | for any assignments: nothing is yielded exactly when every value has the initial id; the first yield differs from the initial device; consecutive yields differ; the last yield is the device of the last value |
| PreferredCameraProvider.NothingYieldedIffSameIdentity | odc-studio-lite-package/Sources/AudioVideoKit/PreferredCameraProvider.swift:50 | nothing is yielded exactly when every value assigned has the initial `uniqueID` |
| PreferredCameraProvider.YieldsAlwaysChange | odc-studio-lite-package/Tests/AudioVideoKitTests/PreferredCameraProviderTests.swift:78-99 | the first yield differs from the initial device and no two consecutive yields are equal |
| PreferredCameraProvider.LastYieldIsLastValue | odc-studio-lite-package/Sources/AudioVideoKit/PreferredCameraProvider.swift:50-55 | when anything is yielded, the last yield is the device of the last value assigned |
| PreferredCameraProvider.TestSequences | odc-studio-lite-package/Tests/AudioVideoKitTests/PreferredCameraProviderTests.swift:40-99 | test example, covered for all inputs by `PreferredCameraProvider.EmissionsFollowIdentity`: "1", nil, "2" yields all three; "1", "1", nil yields "1" then nil |
| PreferredCameraProvider.LateReaderSeesLatest | odc-studio-lite-package/Tests/AudioVideoKitTests/PreferredCameraProviderTests.swift:64-76 | test example, covered for all inputs by `PreferredCameraProvider.NotifyAllBuffersLastEmission` and `NewestChannel.LateReaderSeesNewest`: after "1", nil, "2" the live provider buffers "2", and a reader that starts then receives only "2" |
| PreferredCameraObserver.Init | odc-studio-lite-package/Sources/AudioVideoKit/PreferredCameraObserver.swift:18-23 | `init` registers one observer on "systemPreferredCamera" with old and new values and no context |
| PreferredCameraObserver.Deinit | odc-studio-lite-package/Sources/AudioVideoKit/PreferredCameraObserver.swift:25-27 | `deinit` removes it and calls nothing |
| PreferredCameraObserver.ObserveValue | odc-studio-lite-package/Sources/AudioVideoKit/PreferredCameraObserver.swift:29-43 | any other key path fails the precondition; `onNext` gets the new source exactly when the `uniqueID`s differ |
| PreferredCameraObserver.Notify | odc-studio-lite-package/Sources/AudioVideoKit/PreferredCameraObserver.swift:22-43 | unobserved key paths leave the observer untouched; an observed change fails exactly on the precondition; each change calls `onNext` at most once |
| PreferredCameraObserver.NotifyIsOnChange | odc-studio-lite-package/Sources/AudioVideoKit/PreferredCameraObserver.swift:29-43 | a live observer reacts to a change of the system camera exactly as `OnChange` states, so the fold lemmas over `OnChange` describe the callbacks it makes |
| PreferredCameraObserver.OnChange | odc-studio-lite-package/Sources/AudioVideoKit/PreferredCameraObserver.swift:40-42 | a change calls `onNext` with the new source exactly when the identity changed |
| PreferredCameraObserver.OnChangesAppendOnNextCalls | odc-studio-lite-package/Sources/AudioVideoKit/PreferredCameraObserver.swift:29-43 | feeding changes one at a time appends exactly the filtered sequence of new sources |
| PreferredCameraObserver.ProviderYieldsObserverCalls | odc-studio-lite-package/Sources/AudioVideoKit/PreferredCameraProvider.swift:50-55 | for every sequence of changes, the provider yields exactly the devices of the sources the observer passes to `onNext` |
| PreferredCameraObserver.UserPreferredChangesNotDelivered | odc-studio-lite-package/Tests/AudioVideoKitTests/PreferredCameraObserverTests.swift:74-92 | test example, covered for all inputs by `PreferredCameraObserver.Notify` and `KeyValueObserving.RegisteredObservesOnlySystemCamera`: "userPreferredCamera" changes do not reach `onNext`; the following system change to "1" does |
| PreferredCameraObserver.ReleasedObserverHearsNothing | odc-studio-lite-package/Sources/AudioVideoKit/PreferredCameraObserver.swift:25-27 | after `deinit` no change reaches the observer |
| PreferredCameraObserver.RepeatedSourceCalledOnce | odc-studio-lite-package/Tests/AudioVideoKitTests/PreferredCameraObserverTests.swift:54-72 | test example, covered for all inputs by `PreferredCameraObserver.OnChangesAppendOnNextCalls`: "1", "1", nil calls `onNext` with "1" and then nil |
| PreferredCameraController.SetPreferredCamera | odc-studio-lite-package/Sources/AudioVideoKit/PreferredCameraController.swift:46-53 | the user-preferred camera is set to the device with the selected id exactly when such a camera exists, and to nil otherwise or for a nil selection |
| PreferredCameraController.NameIsIgnored | odc-studio-lite-package/Sources/AudioVideoKit/PreferredCameraController.swift:48-49 | the selected device's name plays no part |
| PreferredCameraController.SetThenReadBack | odc-studio-lite-package/Sources/AudioVideoKit/PreferredCameraController.swift:46-53 | a known camera, set and then reported back the way the stream reports devices, is the selected device with an empty name |
| PreferredCameraController.ObserverInit | odc-studio-lite-package/Sources/AudioVideoKit/PreferredCameraController.swift:65-72 | the nested observer registers one observer on "systemPreferredCamera" with old and new values and no context |
| PreferredCameraController.ObserverDeinit | odc-studio-lite-package/Sources/AudioVideoKit/PreferredCameraController.swift:74-76 | and removes it on release |
| PreferredCameraController.ObserveValue | odc-studio-lite-package/Sources/AudioVideoKit/PreferredCameraController.swift:78-95 | any other key path fails the precondition; a device with the new id and an empty name, or nil, is yielded exactly when the `uniqueID`s differ |
| PreferredCameraController.SameAsProvider | odc-studio-lite-package/Sources/AudioVideoKit/PreferredCameraController.swift:84-94 | the controller's observer reacts to every change exactly as the provider does |
| CameraControls.Init | odc-studio-lite-package/Sources/Capture/CameraControl.swift:13-33 | a new control has no selection, an empty camera list, and has forwarded nothing |
| CameraControls.SelectCamera | odc-studio-lite-package/Sources/Capture/CameraControl.swift:13-17 | every assignment, nil or repeated, is forwarded to the controller once; the list is untouched |
| CameraControls.SelectionsForwardedInOrder | odc-studio-lite-package/Sources/Capture/CameraControl.swift:13-17 | two selections are forwarded in order and the second one stays selected |
| CameraControls.SelectionReachesController | odc-studio-lite-package/Tests/CaptureTests/CameraControlTests.swift:16-33 | test example, covered for all inputs by `CameraControls.SelectCamera`: the test's camera is forwarded exactly, name included |
| CameraControls.ApplyDeviceLists | odc-studio-lite-package/Sources/Capture/CameraControl.swift:40-42 | the list ends as the last list delivered, and the selection is not touched |
| CameraControls.ListenForCameras | odc-studio-lite-package/Sources/Capture/CameraControl.swift:35-43 | the first preferred camera becomes the selection and is forwarded. Device lists are applied only once the preferred stream has given one element or finished. An empty open stream blocks everything |
| CameraControls.OnlyFirstPreferredCameraTaken | odc-studio-lite-package/Sources/Capture/CameraControl.swift:36 | later preferred cameras, and whether the stream finishes after the first, make no difference |

## Left out

- The SwiftUI views, app intents, shortcuts and app entry points: they only read and assign the manager's properties.
- HaishinKit's internals (the RTMP handshake, encoding, the mixer's own pipeline): connect, publish and close are inputs that succeed or throw, and the mixer is a running flag plus the log of appended samples.
- The `RTMPConnection.Code` table belongs to HaishinKit. A status code is modelled as either `connectSuccess` or some other code, or nil when the table does not know it.
- The `SCFrameStatus` raw values of the six named cases (0 to 5) come from ScreenCaptureKit's SDK. Any other Int is still a status, as for every enumeration imported from C.
- Concurrency: `toogleBroadcast` runs atomically, so no status event or second toggle interleaves at its awaits. Each `didSet` task runs to completion before the next event. Two toggles racing on the main actor are not modelled.
- `SCStream` creation, `addStreamOutput`, `startCapture` and their failures in `configureManager`: the model starts from the configured manager. The force-unwrapped stream and content before `configureManager` has run are not modelled.
- `currentDisplay` force-unwraps the first display. The App model requires a display (`HasDisplay`) instead of modelling the crash. The ODCLite filter requires one for any content that is fetched.
- `NSScreen.backingScaleFactor`, its default of 2 and its conversion to `Int` appear only as an integer input, the scale factor. A `SystemChanged` event may replace it and the default microphone between any two events; the model does not say when the system does so.
- BroadcastManager.ConfigurationFor: width and height are unbounded integers. Swift's `Int` multiplication `currentDisplay.width * scaleFactor` (App/Model/BroadcastManager.swift:119-120) traps on overflow, which the model does not reproduce.
- The app's camera preview: `selectedCameraDevice`, `configureCameraSession`, `listenForVideoDevices` and the `AVCaptureSession` inputs all sit on AVFoundation's session and discovery APIs.
- Logging, the stream delegate (it only logs), and `deinit`'s `stopCapture`.
- ODCLite's `toogleBroadcast` (ODCLite/Model/BroadcastManager.swift:122) has an empty body, so calling it changes nothing. Its `StreamOutput` discards every sample. The ODCLite model therefore has neither a toggle nor outputs.
- NewestChannel.Run: a read is a take that completes at its place in the trace, and a read on an empty slot receives nothing. A reader suspended on an empty slot, which `AsyncStream` resumes with the very next yielded element, is not modelled; such a reader would receive an element that a later yield overtakes in the model.
- The status stream and the preferred-camera streams are unbounded. The model takes finite stretches of them.
- `PreferredCameraController` keeps the observer's stream inside a struct, and the observer is released with the last copy. The model records the registration calls but not that lifetime.
