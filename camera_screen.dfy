/** The camera screen's state and the handlers that change it.

    The screen keeps three pieces of state: whether the live camera view is
    shown, the path of the last photo (empty when there is none) and the
    selected resolution, always an entry of a fixed catalog. `Step` says what
    each user press or hardware callback does to that state and what it emits;
    the class `CameraScreen` holds the state in mutable fields and has one
    method per handler, each proved to perform `Step`. */
module Screens {
  import opened VideoSize

  datatype Option<T> = None | Some(value: T)

  /** A resolution tier: pixel dimensions and the label the estimator prices. */
  datatype Resolution = Resolution(width: nat, height: nat, pixel: string)

  /** The fixed catalog, in button order. */
  const Resolutions: seq<Resolution> := [
    Resolution(640, 480, "480p"),
    Resolution(1280, 720, "720p"),
    Resolution(1920, 1080, "1080p")
  ]

  /** Compression factor asked of every photo. */
  const PhotoQuality: real := 0.5

  /** Codec asked of every recording. */
  const VideoCodec: string := "h265"

  /** Options handed to the camera's photo capture. */
  datatype PhotoOptions = PhotoOptions(quality: real, width: nat, height: nat)

  /** A recording started by the screen: the codec handed to the camera and
      the tier label that its finish callback captured when it was created. */
  datatype RecordingCall = RecordingCall(videoCodec: string, capturedTier: string)

  /** The screen's state. */
  datatype ScreenState = ScreenState(showCamera: bool, imageSource: string, selectedResolution: Resolution)

  /** Camera hidden, no photo, 480p selected. */
  const Initial: ScreenState := ScreenState(false, "", Resolutions[0])

  /** The invariant of the screen: the selection is a catalog entry. */
  predicate InCatalog(s: ScreenState) {
    s.selectedResolution in Resolutions
  }

  /** What can happen to the screen. `cameraMounted` says whether the camera
      reference was set; `shot` is the photo path the camera returned, or
      `None` when the capture failed. */
  datatype Event =
    | ResolutionPressed(index: nat)
    | ShowCameraPressed
    | RetakePressed
    | UsePhotoPressed
    | TakePicturePressed(cameraMounted: bool, shot: Option<string>)
    | StartRecordingPressed(cameraMounted: bool)
    | StopRecordingPressed(cameraMounted: bool)
    | RecordingFinished(capturedTier: string, duration: real)
    | RecordingFailed(error: string)

  /** Events the model accepts: a resolution button exists only for a
      catalog index, and a finish callback only carries a tier it captured
      from a catalog entry. Any accepted event may occur in any state; the
      screen itself shows some buttons only while the camera view is shown
      and the others only while it is hidden. */
  predicate Deliverable(e: Event) {
    match e
    case ResolutionPressed(index) => index < |Resolutions|
    case RecordingFinished(tier, _) => tier in ResolutionMultiplier
    case _ => true
  }

  /** What a step emits to the outside: a call to the camera, the size
      notification, an error log line, or nothing. */
  datatype Effect =
    | Nothing
    | PhotoRequested(options: PhotoOptions)
    | RecordingStarted(call: RecordingCall)
    | StopRequested
    | SizeAlert(megabytes: real)
    | ErrorLogged(error: string)

  datatype Transition = Transition(screen: ScreenState, effect: Effect)

  /** The three camera-view presses are the same handler. */
  predicate IsCameraPress(e: Event) {
    e.ShowCameraPressed? || e.RetakePressed? || e.UsePhotoPressed?
  }

  /** Events of the recording flow: start, stop and the two callbacks. */
  predicate IsRecordingEvent(e: Event) {
    e.StartRecordingPressed? || e.StopRecordingPressed? || e.RecordingFinished? || e.RecordingFailed?
  }

  /** One handler run on the screen state. */
  function Step(s: ScreenState, e: Event): (t: Transition)
    requires Deliverable(e)
    ensures InCatalog(s) ==> InCatalog(t.screen)
    ensures IsRecordingEvent(e) ==> t.screen == s
    ensures IsCameraPress(e) ==> t.screen == s.(showCamera := true) && t.effect == Nothing
    ensures e.ResolutionPressed? ==>
              t.screen == s.(selectedResolution := Resolutions[e.index]) && t.effect == Nothing
    ensures t.effect.SizeAlert? <==> e.RecordingFinished?
  {
    match e
    case ResolutionPressed(index) =>
      Transition(s.(selectedResolution := Resolutions[index]), Nothing)
    case ShowCameraPressed =>
      Transition(s.(showCamera := true), Nothing)
    case RetakePressed =>
      Transition(s.(showCamera := true), Nothing)
    case UsePhotoPressed =>
      Transition(s.(showCamera := true), Nothing)
    case TakePicturePressed(cameraMounted, shot) =>
      if !cameraMounted then Transition(s, Nothing)
      else
        var request := PhotoRequested(PhotoOptions(PhotoQuality, s.selectedResolution.width, s.selectedResolution.height));
        if shot.None? then Transition(s, request)
        else Transition(s.(imageSource := shot.value, showCamera := false), request)
    case StartRecordingPressed(cameraMounted) =>
      if cameraMounted then Transition(s, RecordingStarted(RecordingCall(VideoCodec, s.selectedResolution.pixel)))
      else Transition(s, Nothing)
    case StopRecordingPressed(cameraMounted) =>
      Transition(s, if cameraMounted then StopRequested else Nothing)
    case RecordingFinished(tier, duration) =>
      Transition(s, SizeAlert(CalculateVideoSize(tier, RecordingBitrate, duration)))
    case RecordingFailed(error) =>
      Transition(s, ErrorLogged(error))
  }

  /** The catalog's labels are exactly the labels the estimator prices, so
      every selectable tier has a multiplier. */
  lemma CatalogMatchesMultipliers()
    ensures (set r | r in Resolutions :: r.pixel) == ResolutionMultiplier.Keys
    ensures forall r :: r in Resolutions ==> r.pixel in ResolutionMultiplier
  {
  }

  /** Photo capture with a mounted camera asks for quality 0.5 at the selected
      tier's dimensions; only a returned path changes the state, and then it
      becomes the shown image with the camera hidden. */
  lemma TakePictureEffect(s: ScreenState, cameraMounted: bool, shot: Option<string>)
    ensures var t := Step(s, TakePicturePressed(cameraMounted, shot));
      && (t.effect.PhotoRequested? <==> cameraMounted)
      && (cameraMounted ==> t.effect.options == PhotoOptions(0.5, s.selectedResolution.width, s.selectedResolution.height))
      && t.screen.selectedResolution == s.selectedResolution
      && (if cameraMounted && shot.Some? then !t.screen.showCamera && t.screen.imageSource == shot.value
          else t.screen == s)
  {
  }

  /** A started recording captures the tier selected at the moment of the
      press, and that tier can always be priced. */
  lemma StartCapturesSelectedTier(s: ScreenState, cameraMounted: bool)
    requires InCatalog(s)
    ensures var t := Step(s, StartRecordingPressed(cameraMounted));
      && (t.effect.RecordingStarted? <==> cameraMounted)
      && (cameraMounted ==> t.effect.call == RecordingCall("h265", s.selectedResolution.pixel)
                             && t.effect.call.capturedTier in ResolutionMultiplier)
  {
  }

  /** The screen component: its state as mutable fields, one method per
      handler. */
  class CameraScreen {
    var showCamera: bool
    var imageSource: string
    var selectedResolution: Resolution

    predicate Valid()
      reads this
    {
      selectedResolution in Resolutions
    }

    function Snapshot(): (s: ScreenState)
      reads this
      ensures InCatalog(s) <==> Valid()
    {
      ScreenState(showCamera, imageSource, selectedResolution)
    }

    /** The screen as first rendered. */
    constructor ()
      ensures Valid() && Snapshot() == Initial
      ensures !showCamera && imageSource == ""
      ensures selectedResolution == Resolution(640, 480, "480p")
    {
      showCamera := false;
      imageSource := "";
      selectedResolution := Resolutions[0];
    }

    /** A resolution button: selects that catalog entry and nothing else. */
    method SelectResolution(index: nat)
      requires Valid() && index < |Resolutions|
      modifies this`selectedResolution
      ensures Valid()
      ensures selectedResolution == Resolutions[index]
      ensures showCamera == old(showCamera) && imageSource == old(imageSource)
      ensures Snapshot() == Step(old(Snapshot()), ResolutionPressed(index)).screen
    {
      selectedResolution := Resolutions[index];
    }

    /** The Show Camera button: shows the live view; pressing it again
      changes nothing. */
    method ShowCamera()
      requires Valid()
      modifies this`showCamera
      ensures Valid()
      ensures showCamera
      ensures imageSource == old(imageSource) && selectedResolution == old(selectedResolution)
      ensures old(showCamera) ==> Snapshot() == old(Snapshot())
      ensures Snapshot() == Step(old(Snapshot()), ShowCameraPressed).screen
    {
      showCamera := true;
    }

    /** The Retake button: the same handler as Show Camera. */
    method Retake()
      requires Valid()
      modifies this`showCamera
      ensures Valid()
      ensures showCamera
      ensures imageSource == old(imageSource) && selectedResolution == old(selectedResolution)
      ensures old(showCamera) ==> Snapshot() == old(Snapshot())
      ensures Snapshot() == Step(old(Snapshot()), RetakePressed).screen
    {
      ShowCamera();
    }

    /** The Use Photo button: the same handler as Show Camera. */
    method UsePhoto()
      requires Valid()
      modifies this`showCamera
      ensures Valid()
      ensures showCamera
      ensures imageSource == old(imageSource) && selectedResolution == old(selectedResolution)
      ensures old(showCamera) ==> Snapshot() == old(Snapshot())
      ensures Snapshot() == Step(old(Snapshot()), UsePhotoPressed).screen
    {
      ShowCamera();
    }

    /** Photo capture. Without a camera reference nothing happens. Otherwise
      the camera is asked for a photo at quality 0.5 and the selected tier's
      size; if it returns a path, that path becomes the shown image and the
      live view is hidden, and if it fails the state is left as it was. */
    method TakePicture(cameraMounted: bool, shot: Option<string>) returns (request: Option<PhotoOptions>)
      requires Valid()
      modifies this`showCamera, this`imageSource
      ensures Valid()
      ensures request == if cameraMounted
                         then Some(PhotoOptions(PhotoQuality, selectedResolution.width, selectedResolution.height))
                         else None
      ensures if cameraMounted && shot.Some?
              then !showCamera && imageSource == shot.value
              else showCamera == old(showCamera) && imageSource == old(imageSource)
      ensures Step(old(Snapshot()), TakePicturePressed(cameraMounted, shot))
           == Transition(Snapshot(), if request.Some? then PhotoRequested(request.value) else Nothing)
    {
      request := None;
      if cameraMounted {
        request := Some(PhotoOptions(PhotoQuality, selectedResolution.width, selectedResolution.height));
        match shot {
          case None =>
          case Some(path) =>
            imageSource := path;
            showCamera := false;
        }
      }
    }

    /** The record button: asks the camera to record in h265 and hands it a
      finish callback that captured the tier selected now. The screen state
      does not change. */
    method StartRecording(cameraMounted: bool) returns (call: Option<RecordingCall>)
      requires Valid()
      ensures call == if cameraMounted then Some(RecordingCall(VideoCodec, selectedResolution.pixel)) else None
      ensures call.Some? ==> call.value.capturedTier in ResolutionMultiplier
      ensures Step(Snapshot(), StartRecordingPressed(cameraMounted))
           == Transition(Snapshot(), if call.Some? then RecordingStarted(call.value) else Nothing)
    {
      CatalogMatchesMultipliers();
      if cameraMounted {
        call := Some(RecordingCall(VideoCodec, selectedResolution.pixel));
      } else {
        call := None;
      }
    }

    /** The stop button: asks the camera to stop; the screen state does not
      change. */
    method StopRecording(cameraMounted: bool) returns (stopRequested: bool)
      ensures stopRequested <==> cameraMounted
      ensures Step(Snapshot(), StopRecordingPressed(cameraMounted))
           == Transition(Snapshot(), if stopRequested then StopRequested else Nothing)
    {
      stopRequested := cameraMounted;
    }

    /** The finish callback: exactly one size notification, estimated at the
      fixed bitrate for the tier captured when recording started, whatever
      is selected now. The screen state does not change. */
    method OnRecordingFinished(capturedTier: string, duration: real) returns (alertMB: real)
      requires capturedTier in ResolutionMultiplier
      ensures alertMB == CalculateVideoSize(capturedTier, RecordingBitrate, duration)
      ensures alertMB == ResolutionMultiplier[capturedTier] * duration / 2.0
      ensures duration >= 0.0 ==> alertMB >= 0.0
      ensures Step(Snapshot(), RecordingFinished(capturedTier, duration)) == Transition(Snapshot(), SizeAlert(alertMB))
    {
      alertMB := CalculateVideoSize(capturedTier, RecordingBitrate, duration);
      FixedBitrateSize(capturedTier, duration);
    }

    /** The error callback: only logs the error. The screen state does not
      change. */
    method OnRecordingError(error: string) returns (logged: string)
      ensures logged == error
      ensures Step(Snapshot(), RecordingFailed(error)) == Transition(Snapshot(), ErrorLogged(logged))
    {
      logged := error;
    }
  }
}
