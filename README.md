# Camera screen: video-size estimator and screen state

This project models the logic of the `CameraScreen` component of a React
Native camera module.

- **Size estimator.** A resolution tier label ("480p", "720p", "1080p"), a
  bitrate in bits per second and a duration in seconds become an estimated
  file size in megabytes. The formula is `bitrate / 1 000 000 * multiplier * duration / 8`.
  The multipliers are 1, 2 and 3. Arithmetic is over Dafny's `real`, so every
  value is exact.
- **Screen state.** The component keeps three pieces of state: whether the
  live camera view is shown (`showCamera`), the path of the last photo
  (`imageSource`, empty when there is none) and the selected catalog
  resolution (`selectedResolution`). These handlers act on it: the three
  resolution buttons, Show Camera, Retake, Use Photo, the record and stop
  buttons, and the recording's finish and error callbacks. The photo-capture
  handler is modelled too, although its button is commented out in the
  screen.

Files:

- `video_size.dfy` (module `VideoSize`): the multiplier table, the estimator
  as a function, and lemmas about it. The lemmas cover sign, sample values,
  linearity, monotonicity and the ordering of tiers.
- `camera_screen.dfy` (module `Screens`): the resolution catalog, the
  screen state as a value, the events, and `Step`, which is the effect of one
  handler. It also holds the class `CameraScreen`. Its fields are the three
  pieces of state, and it has one method per handler. Each method is proved to
  perform `Step` and to keep the selection inside the catalog.
- `screen_traces.dfy` (module `ScreenTraces`): `Run` applies a sequence of
  events in order. Lemmas about it, proved by induction:
  - every reachable state selects a catalog entry;
  - each finished recording produces exactly one size notification;
  - recording events never change the screen;
  - among resolution presses, the last one wins;
  - the three camera-view presses are idempotent.

Hardware results are parameters:

- `cameraMounted` says whether the camera reference is set.
- `shot` is the path that photo capture returned, or `None` when the capture
  failed.
- `duration` is the length that the recording callback reports.
- `capturedTier` is the tier that the finish callback captured.

Outputs to the outside world are values:

- the photo options requested;
- the recording call (codec and captured tier);
- the stop request;
- the size notification in megabytes;
- the logged error.

Three behaviours of the code are worth stating plainly, since a reader might
expect otherwise:

- The screen has no recording or review mode. Starting, stopping, finishing
  or failing a recording never touches `showCamera` or `imageSource`;
  finishing only shows the size alert (Screens/CameraScreen.js:88-101).
- The finish callback prices the tier that was selected when record was
  pressed, not the one selected when the recording ends
  (Screens/CameraScreen.js:88-95, 63-69): the callback is a closure created
  at the press, and through `calcVideoSize` it reads that render's
  `selectedResolution`. `StartRecording` returns that tier,
  `OnRecordingFinished` takes it as a parameter, and
  `ScreenTraces.FinishPricesStartTier` proves it over a whole run.
- `stopRecording` always calls the camera's stop when the reference is set
  (Screens/CameraScreen.js:99-101), whether or not a recording is running.

## Model

| member | source | states |
|---|---|---|
| `VideoSize.CalculateVideoSize` | Screens/CameraScreen.js:75-85 | megabytes times 8 times 10^6 equals bitrate times the tier's multiplier times duration (a bits-to-megabytes conversion); non-negative for non-negative bitrate and duration; zero when either is zero; defined only for the three priced labels |
| `VideoSize.PricedLabels` | Screens/CameraScreen.js:76-80 | the only priced labels are 480p, 720p and 1080p |
| `VideoSize.FixedBitrateSize` | Screens/CameraScreen.js:63-69 | at the fixed bitrate of 4 000 000 the estimate is multiplier times duration divided by 2 |
| `VideoSize.SampleSizes` | Screens/CameraScreen.js:63-85 | at 4 000 000 bit/s: 720p for 60 s is 60 MB, 1080p for 10 s is 15 MB, 480p for 0 s is 0 MB, 720p for 30 s is 30 MB (the value in the log line's comment) |
| `VideoSize.SizeLinearInDuration` | Screens/CameraScreen.js:81-84 | the estimate is additive in duration and scales with it |
| `VideoSize.SizeMonotoneInDuration` | Screens/CameraScreen.js:82-83 | for a non-negative bitrate the estimate never decreases as duration grows |
| `VideoSize.TierOrdering` | Screens/CameraScreen.js:76-83 | for the same bitrate and duration, 1080p is exactly 3 times 480p and 720p exactly twice 480p; with non-negative inputs 480p <= 720p <= 1080p |
| `Screens.CatalogMatchesMultipliers` | Screens/CameraScreen.js:22-80 | the catalog's labels are exactly the multiplier table's keys, so every selectable tier can be priced |
| `Screens.Step` | Screens/CameraScreen.js:44-205 | one handler keeps the selection in the catalog. Recording events leave the state unchanged. The camera-view presses set only `showCamera` and emit nothing. A resolution press replaces only the selection. A size alert is emitted exactly when a recording finishes |
| `Screens.TakePictureEffect` | Screens/CameraScreen.js:44-56 | photo capture is requested exactly when the camera reference is set, with quality 0.5 and the selected tier's width and height. Only a returned path changes the state: it becomes `imageSource` and the camera view is hidden. Otherwise the state is unchanged |
| `Screens.StartCapturesSelectedTier` | Screens/CameraScreen.js:88-95 | recording is started exactly when the camera reference is set, with codec h265. The callback captures the tier selected at the press, which can always be priced |
| `Screens.CameraScreen.constructor` | Screens/CameraScreen.js:22-32 | initially the camera view is hidden, there is no photo, and 640x480 "480p" (the first catalog entry) is selected |
| `Screens.CameraScreen.SelectResolution` | Screens/CameraScreen.js:147-151 | selects the pressed catalog entry. `showCamera` and `imageSource` are unchanged, and the selection stays in the catalog |
| `Screens.CameraScreen.ShowCamera` | Screens/CameraScreen.js:186-191 | sets `showCamera`, keeps the photo and the selection, and changes nothing when the view is already shown |
| `Screens.CameraScreen.Retake` | Screens/CameraScreen.js:196-202 | the same transition as Show Camera |
| `Screens.CameraScreen.UsePhoto` | Screens/CameraScreen.js:203-209 | the same transition as Show Camera |
| `Screens.CameraScreen.TakePicture` | Screens/CameraScreen.js:44-56 | with no camera reference, nothing is requested and nothing changes. Otherwise it requests quality 0.5 at the selected size. A returned path is stored and the view hidden; a failed capture leaves the state as it was. The selection never changes |
| `Screens.CameraScreen.StartRecording` | Screens/CameraScreen.js:88-96 | returns the h265 recording call with the currently selected tier captured (none without a camera reference). The captured tier has a multiplier, and the screen state is unchanged |
| `Screens.CameraScreen.StopRecording` | Screens/CameraScreen.js:99-101 | requests a stop exactly when the camera reference is set and changes no state |
| `Screens.CameraScreen.OnRecordingFinished` | Screens/CameraScreen.js:63-95 | the one notification is the estimate at 4 000 000 bit/s for the captured tier, which is the multiplier times duration / 2. It is non-negative for a non-negative duration, and the screen state is unchanged |
| `Screens.CameraScreen.OnRecordingError` | Screens/CameraScreen.js:94 | only logs the error; the screen state is unchanged |
| `ScreenTraces.Run` | Screens/CameraScreen.js:28-32 | a run emits one effect per event and keeps the selection inside the catalog |
| `ScreenTraces.ReachableInCatalog` | Screens/CameraScreen.js:22-32 | every state reachable from the first render selects one of the three catalog entries |
| `ScreenTraces.OneAlertPerFinish` | Screens/CameraScreen.js:63-95 | a run's size notifications are exactly one per finished recording, in order. Each carries the estimate for that recording's captured tier and duration |
| `ScreenTraces.FinishPricesStartTier` | Screens/CameraScreen.js:63-95 | in a run that presses record with the camera mounted, then any events, then finishes that recording, the start emits the h265 call with the tier then selected, and the finish alert is the estimate for that tier, whatever was selected in between |
| `ScreenTraces.RunAppend` | Screens/CameraScreen.js:28-32 | running two event sequences one after the other gives the same final state and the concatenated effects as running their concatenation |
| `ScreenTraces.RecordingLeavesScreen` | Screens/CameraScreen.js:88-101 | any run of start, stop, finish and error events leaves `showCamera`, `imageSource` and the selection unchanged |
| `ScreenTraces.SelectionsOnlySelect` | Screens/CameraScreen.js:147-151 | a run of resolution presses changes only the selection, and the last press wins |
| `ScreenTraces.CameraPressesIdempotent` | Screens/CameraScreen.js:186-209 | any non-empty run of Show Camera, Retake and Use Photo presses gives the same state as one press: the view is shown, and the photo and selection are kept |

## Left out

- Screens.CameraScreen.OnRecordingFinished: the alert carries the exact estimate. The source rounds it to two decimals with `Number(videoSizeMB.toFixed(2))` for display only (Screens/CameraScreen.js:71). Binary floating point is not modelled anywhere; all sizes are exact reals.
- VideoSize.CalculateVideoSize: requires one of the three labels. In the source, any other label looks up `undefined` and gives NaN. That cannot happen here, because every selectable tier is a catalog entry (`Screens.CatalogMatchesMultipliers`).
- Event availability is over-approximated: every event may occur in every state. In the screen, the resolution, record and stop buttons are rendered only while `showCamera` is true (Screens/CameraScreen.js:124-173). Show Camera, Retake and Use Photo are rendered only while it is false (175-211). The camera reference is set only while the camera view is mounted (126-128), so `cameraMounted` in fact follows `showCamera`. The photo button is commented out (161-164), so in the shipped screen `handleTakePicture` never runs, `imageSource` stays empty and nothing sets `showCamera` back to false. Every property of runs is proved for all event sequences, so it also holds of the runs the screen can actually produce.
- The camera library (`requestCameraPermission`, `takePhoto`, `startRecording`, `stopRecording`, `useCameraDevice` and the "Camera not available" fallback): it is foreign hardware code. Its results enter only as parameters (`cameraMounted`, `shot`, `duration`).
- When the camera reference is null, calling `startRecording`/`stopRecording` throws inside an async handler. The promise is then rejected and nothing happens. The model shows this as no request and no state change.
- The permission request on mount only logs its result. It is I/O and changes no state.
- The `Alert.alert` dialog and `console.log`/`console.error` are I/O. They are represented by the returned size value and the returned error text.
- JSX rendering, layout and the style sheet are presentation only.
- Async interleaving is not modelled. A photo capture or a recording may complete after further presses. Each handler is modelled as one atomic step, and the finish callback's captured tier is passed explicitly. React re-render mechanics are not modelled.
- `App.js` only mounts the screen and is not part of this model.
