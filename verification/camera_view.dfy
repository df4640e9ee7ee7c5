/** The camera view itself: its React props, its private flags, the `cameraSession`
    field and the log of calls it makes, with the callbacks and methods that change
    them. Every method is tied to the functions of modules Props and Session. */
module CameraView {
  import opened Wrappers
  import opened Platform
  import opened Props
  import opened Session

  /** The `format` prop, reduced to the four keys the view reads from it. */
  datatype Format = Format(videoWidth: int, videoHeight: int, photoWidth: int, photoHeight: int)

  /** View-ready occurs at most once in `events`. */
  predicate ViewReadyAtMostOnce(events: seq<Event>)
  {
    forall i, j :: 0 <= i < j < |events| && events[i] == ViewReady ==> events[j] != ViewReady
  }

  /** Appending events other than view-ready keeps it at most once and leaves whether
      it happened unchanged. */
  lemma AppendWithoutViewReady(events: seq<Event>, log: seq<Event>)
    requires ViewReadyAtMostOnce(events)
    requires ViewReady !in log
    ensures ViewReadyAtMostOnce(events + log)
    ensures ViewReady in events + log <==> ViewReady in events
  {
    var all := events + log;
    forall i, j | 0 <= i < j < |all| && all[i] == ViewReady
      ensures all[j] != ViewReady
    {
      assert i < |events|;
      if j >= |events| {
        assert all[j] == log[j - |events|];
      }
    }
  }

  /** The output list of `configureCamera`, built in place: a video output on a new
      ImageReader when video or frame processing is on, then a photo output on a new
      ImageReader when photo is on, then the preview surface when the preview is
      native. An ImageReader creation that throws ends the build with its exception. */
  method BuildOutputs(useVideo: bool, usePhoto: bool, usePreview: bool,
                      videoSize: Size, videoFormat: int, photoSize: Size, isMirrored: bool, hw: Hardware)
    returns (r: Result<seq<SurfaceOutput>, Error>)
    ensures var failure := ReaderFailure(useVideo, usePhoto, videoSize, videoFormat, photoSize, hw);
      r == if failure.Some? then Err(failure.value)
           else Ok(SessionOutputs(useVideo, usePhoto, usePreview, videoSize, videoFormat, photoSize, isMirrored))
  {
    var outputs := [];
    if useVideo {
      var thrown := hw.newImageReader(videoSize, videoFormat, 2);
      if thrown.Some? {
        return Err(thrown.value);
      }
      outputs := outputs + [SurfaceOutput(ImageReaderSurface(videoSize, videoFormat, 2), Video, isMirrored)];
    }
    if usePhoto {
      var thrown := hw.newImageReader(photoSize, JPEG, 1);
      if thrown.Some? {
        return Err(thrown.value);
      }
      outputs := outputs + [SurfaceOutput(ImageReaderSurface(photoSize, JPEG, 1), Photo, isMirrored)];
    }
    if usePreview {
      outputs := outputs + [SurfaceOutput(PreviewSurface, Preview, isMirrored)];
    }
    assert ReaderFailure(useVideo, usePhoto, videoSize, videoFormat, photoSize, hw).None?;
    assert outputs == SessionOutputs(useVideo, usePhoto, usePreview, videoSize, videoFormat, photoSize, isMirrored);
    return Ok(outputs);
  }

  /** What `configureSession` does once `openCamera` has answered: a disconnect or an
      open error is reported as one error naming the camera, with the session field
      unchanged; an opened device is configured by one run of `configureCamera`,
      whose own exception, if any, is the result's. */
  function OpenResult(request: StreamRequest, cameraId: string, outcome: OpenOutcome, hw: Hardware,
                      session: Option<CaptureSession>): PassResult
  {
    match outcome
    case Disconnected => PassResult([ErrorReported(CameraDisconnectedError(cameraId))], session, None)
    case OpenFailed(code) =>
      PassResult([ErrorReported(CameraCannotBeOpenedError(cameraId, hw.parseCameraError(code)))], session, None)
    case Opened => ConfigurePass(request, cameraId, hw, session, false)
  }

  /** Appending two logs one after the other is appending their concatenation; called
      where a method's log grows in two steps, so that the method's own proof does not
      have to establish it among its other facts. */
  lemma AppendAssociative(a: seq<Event>, b: seq<Event>, c: seq<Event>)
    ensures a + b + c == a + (b + c)
  {
  }

  class CameraView {
    // props that require reconfiguring the session
    var cameraId: Option<string>
    var photo: Option<bool>
    var video: Option<bool>
    var enableFrameProcessor: bool
    var format: Option<Format>
    var previewType: string
    // other props
    var zoom: real
    var orientation: Option<string>

    // private state
    var isMounted: bool
    var cameraSession: Option<CaptureSession>
    var isPreviewSurfaceReady: bool
    var minZoom: real
    var maxZoom: real

    /** The calls the view has made into the bridge and the camera, oldest first. */
    var events: seq<Event>

    /** The view is mounted exactly when it has reported view-ready, and it has
        reported view-ready at most once. */
    ghost predicate Valid()
      reads this
    {
      (isMounted <==> ViewReady in events) && ViewReadyAtMostOnce(events)
    }

    /** A fresh view holds the props' defaults, is not mounted, has no session and has
        made no call yet. */
    constructor ()
      ensures Valid()
      ensures cameraId == None && photo == None && video == None && !enableFrameProcessor
      ensures format == None && previewType == "native" && zoom == 1.0 && orientation == None
      ensures !isMounted && cameraSession == None && !isPreviewSurfaceReady
      ensures minZoom == 1.0 && maxZoom == 1.0 && events == []
    {
      cameraId, photo, video, enableFrameProcessor := None, None, None, false;
      format, previewType, zoom, orientation := None, "native", 1.0, None;
      isMounted, cameraSession, isPreviewSurfaceReady := false, None, false;
      minZoom, maxZoom := 1.0, 1.0;
      events := [];
    }

    /** The use-cases and target sizes the props currently ask for. */
    function Request(): StreamRequest
      reads this`video, this`enableFrameProcessor, this`photo, this`previewType, this`format
    {
      StreamRequest(
        video == Some(true) || enableFrameProcessor,
        photo == Some(true),
        previewType == "native",
        if format.Some? then Some(Size(format.value.videoWidth, format.value.videoHeight)) else None,
        if format.Some? then Some(Size(format.value.photoWidth, format.value.photoHeight)) else None)
    }

    /** Attaching to the window reports view-ready the first time only. */
    method OnAttachedToWindow()
      requires Valid()
      modifies this`isMounted, this`events
      ensures Valid() && isMounted
      ensures events == old(events) + (if old(isMounted) then [] else [ViewReady])
    {
      if !isMounted {
        isMounted := true;
        events := events + [ViewReady];
      }
    }

    /** The preview surface was destroyed. */
    method SurfaceDestroyed()
      modifies this`isPreviewSurfaceReady
      ensures !isPreviewSurfaceReady
    {
      isPreviewSurfaceReady := false;
    }

    /** The preview surface was created: mark it ready and, when a camera is selected,
        configure the session (with the permission, open outcome and hardware given). */
    method SurfaceCreated(hasPermission: bool, outcome: OpenOutcome, hw: Hardware)
      returns (thrown: Option<Error>, cameraThrown: Option<Error>)
      requires Valid()
      modifies this`isPreviewSurfaceReady, this`events, this`cameraSession
      ensures Valid() && isPreviewSurfaceReady
      ensures old(cameraId).None? ==>
        thrown == None && cameraThrown == None && events == old(events) && cameraSession == old(cameraSession)
      ensures old(cameraId).Some? ==> thrown == (if hasPermission then None else Some(CameraPermissionError))
      ensures thrown.Some? ==> cameraThrown == None && events == old(events) && cameraSession == old(cameraSession)
      ensures old(cameraId).Some? && hasPermission ==>
        var id := old(cameraId).value;
        var r := OpenResult(Request(), id, outcome, hw, old(cameraSession));
        events == old(events) + [CameraOpenRequested(id)] + r.log && cameraSession == r.session && cameraThrown == r.thrown
    {
      isPreviewSurfaceReady := true;
      thrown, cameraThrown := None, None;
      if cameraId.Some? {
        thrown, cameraThrown := ConfigureSession(hasPermission, outcome, hw);
      }
    }

    /** `update()`: the flags raised by the changed props and, when zoom is to be
        reconfigured, the clamped zoom. Nothing else happens: the actions behind the
        flags are not implemented by the view. The body follows the Kotlin statements
        one by one; the ensures ties them to `UpdateFlags` and `ClampZoom`. */
    method Update(changedProps: seq<string>) returns (plan: UpdatePlan, zoomClamped: Option<real>)
      ensures plan == UpdateFlags(changedProps)
      ensures plan.reconfigureZoom <==> zoomClamped.Some?
      ensures zoomClamped.Some? ==> zoomClamped.value == ClampZoom(zoom, minZoom, maxZoom)
    {
      var shouldReconfigureSession := ContainsAny(changedProps, PropsThatRequireSessionReconfiguration);
      var shouldReconfigureZoom := shouldReconfigureSession || "zoom" in changedProps;
      var shouldReconfigureTorch := shouldReconfigureSession || "torch" in changedProps;
      var shouldUpdateOrientation := shouldReconfigureSession || "orientation" in changedProps;
      plan := UpdatePlan(shouldReconfigureSession, shouldReconfigureZoom, shouldReconfigureTorch, shouldUpdateOrientation);
      zoomClamped := None;
      if shouldReconfigureZoom {
        var m := if zoom <= maxZoom then zoom else maxZoom;
        zoomClamped := Some(if m >= minZoom then m else minZoom);
      }
    }

    /** `configureSession()`: without the camera permission it throws
        CameraPermissionError and without a camera id NoCameraDeviceError, in that
        order, before touching the camera. Otherwise it opens the camera once; a
        disconnect or an open error is reported as one error naming the camera, and an
        opened device is configured by one pass of `configureCamera`, whose own
        exception, if any, is `cameraThrown`. */
    method ConfigureSession(hasPermission: bool, outcome: OpenOutcome, hw: Hardware)
      returns (thrown: Option<Error>, cameraThrown: Option<Error>)
      requires Valid()
      modifies this`events, this`cameraSession
      ensures Valid()
      ensures !hasPermission ==> thrown == Some(CameraPermissionError)
      ensures hasPermission && old(cameraId).None? ==> thrown == Some(NoCameraDeviceError)
      ensures thrown.Some? ==> cameraThrown == None && events == old(events) && cameraSession == old(cameraSession)
      ensures thrown.None? <==> hasPermission && old(cameraId).Some?
      ensures thrown.None? ==>
        var id := old(cameraId).value;
        var r := OpenResult(Request(), id, outcome, hw, old(cameraSession));
        events == old(events) + [CameraOpenRequested(id)] + r.log && cameraSession == r.session && cameraThrown == r.thrown
    {
      cameraThrown := None;
      if !hasPermission {
        thrown := Some(CameraPermissionError);
        return;
      }
      if cameraId.None? {
        thrown := Some(NoCameraDeviceError);
        return;
      }
      thrown := None;
      var id := cameraId.value;
      AppendWithoutViewReady(events, [CameraOpenRequested(id)]);
      events := events + [CameraOpenRequested(id)];
      match outcome {
        case Opened =>
          ghost var beforePass := events;
          PassNeverReportsViewReady(Request(), id, hw, cameraSession, false);
          AppendWithoutViewReady(beforePass, ConfigurePass(Request(), id, hw, cameraSession, false).log);
          cameraThrown := ConfigureCamera(id, hw, false);
        case Disconnected =>
          AppendWithoutViewReady(events, [ErrorReported(CameraDisconnectedError(id))]);
          events := events + [ErrorReported(CameraDisconnectedError(id))];
        case OpenFailed(code) =>
          var error := CameraCannotBeOpenedError(id, hw.parseCameraError(code));
          AppendWithoutViewReady(events, [ErrorReported(error)]);
          events := events + [ErrorReported(error)];
      }
    }

    /** `cameraSession?.close()`: the held session, if any, is closed; the field keeps
        referring to it. */
    method CloseSession()
      modifies this`events
      ensures events == old(events) + CloseLog(cameraSession)
    {
      if cameraSession.Some? {
        events := events + [SessionClosed(cameraSession.value)];
      }
    }

    /** The `try` block of `configureCamera`: create the session over `outputs` (it
        replaces the session field at once), add every repeating output to one
        capture request, submit it as the repeating request and report readiness. */
    method CreateSessionAndStart(cameraId: string, outputs: seq<SurfaceOutput>, hw: Hardware, attempt: nat)
      returns (failure: Option<Error>)
      modifies this`events, this`cameraSession
      ensures var r := Submit(cameraId, outputs, hw, attempt, old(cameraSession));
              events == old(events) + r.log && cameraSession == r.session && failure == r.thrown
    {
      events := events + [CaptureSessionRequested(outputs)];
      failure := hw.createCaptureSession(attempt, outputs);
      if failure.None? {
        cameraSession := Some(CaptureSession(cameraId, outputs));
        var targets := AddRepeatingTargets(outputs);
        events := events + [RepeatingRequestSubmitted(targets)];
        failure := hw.setRepeatingRequest(attempt, targets);
        if failure.None? {
          events := events + [Initialized];
        }
      }
    }

    /** The negotiation part of `configureCamera`: read the characteristics of the
        camera, choose the video pixel format and the video and photo sizes (the
        photo size becomes the video size on the second try), then create the
        ImageReaders and build the outputs. */
    method NegotiateOutputs(cameraId: string, hw: Hardware, isSecondTryAfterConfigureError: bool)
      returns (r: Result<seq<SurfaceOutput>, Error>)
      ensures r == Negotiate(Request(), hw.characteristics(cameraId), hw, isSecondTryAfterConfigureError)
    {
      var characteristics := hw.characteristics(cameraId);
      var isMirrored := characteristics.lensFacing == Some(LENS_FACING_FRONT);
      if characteristics.streamConfig.None? {
        return Err(NullPointerException);
      }
      var config := characteristics.streamConfig.value;
      var format := this.format;

      var videoPixelFormatOrError := VideoFormat(config.outputFormats);
      if videoPixelFormatOrError.Err? {
        return Err(videoPixelFormatOrError.error);
      }
      var videoPixelFormat := videoPixelFormatOrError.value;
      var targetVideoSize := if format.Some? then Some(Size(format.value.videoWidth, format.value.videoHeight)) else None;
      var videoSize := hw.closestToOrMax(config.outputSizes(videoPixelFormat), targetVideoSize);

      var photoPixelFormat := JPEG;
      var targetPhotoSize := if format.Some? then Some(Size(format.value.photoWidth, format.value.photoHeight)) else None;
      var photoSize := hw.closestToOrMax(config.outputSizes(photoPixelFormat), targetPhotoSize);
      if isSecondTryAfterConfigureError {
        photoSize := videoSize;
      }

      r := BuildOutputs(video == Some(true) || enableFrameProcessor, photo == Some(true),
        previewType == "native", videoSize, videoPixelFormat, photoSize, isMirrored, hw);
    }

    /** The body of `configureCamera` up to its `catch`: close the held session,
        negotiate the outputs, then create the session and start it. `fromTry` tells
        whether the exception, if any, was thrown inside the `try` block, that is
        after negotiation succeeded. */
    method RunAttempt(cameraId: string, hw: Hardware, isSecondTryAfterConfigureError: bool)
      returns (failure: Option<Error>, fromTry: bool)
      modifies this`events, this`cameraSession
      ensures var a := Attempt(Request(), cameraId, hw, old(cameraSession), isSecondTryAfterConfigureError);
              events == old(events) + a.log && cameraSession == a.session && failure == a.thrown
      ensures fromTry <==> Negotiate(Request(), hw.characteristics(cameraId), hw, isSecondTryAfterConfigureError).Ok?
    {
      ghost var request := Request();
      ghost var held := cameraSession;
      ghost var closing := CloseLog(held);
      AttemptUnfolds(request, cameraId, hw, held, isSecondTryAfterConfigureError);
      CloseSession();
      var negotiated := NegotiateOutputs(cameraId, hw, isSecondTryAfterConfigureError);
      if negotiated.Err? {
        return Some(negotiated.error), false;
      }
      fromTry := true;
      failure := CreateSessionAndStart(cameraId, negotiated.value, hw, AttemptIndex(isSecondTryAfterConfigureError));
      ghost var submitted := Submit(cameraId, negotiated.value, hw, AttemptIndex(isSecondTryAfterConfigureError), held);
      AppendAssociative(old(events), closing, submitted.log);
    }

    /** `configureCamera(camera, isSecondTryAfterConfigureError)` on the opened camera
        `cameraId`: one attempt; an exception thrown before the `try` block escapes at
        once; when the session calls reject the outputs with an
        IllegalArgumentException on the first try, run once more as the second try;
        a second rejection, and any other exception, is rethrown. */
    method ConfigureCamera(cameraId: string, hw: Hardware, isSecondTryAfterConfigureError: bool)
      returns (thrown: Option<Error>)
      modifies this`events, this`cameraSession
      decreases if isSecondTryAfterConfigureError then 0 else 1
      ensures var p := ConfigurePass(Request(), cameraId, hw, old(cameraSession), isSecondTryAfterConfigureError);
              events == old(events) + p.log && cameraSession == p.session && thrown == p.thrown
    {
      ghost var request := Request();
      ghost var first := Attempt(request, cameraId, hw, cameraSession, isSecondTryAfterConfigureError);
      PassUnfolds(request, cameraId, hw, cameraSession, isSecondTryAfterConfigureError);

      var failure, fromTry := RunAttempt(cameraId, hw, isSecondTryAfterConfigureError);

      // catch IllegalArgumentException (thrown in the try block): retry once, then rethrow
      if fromTry && failure.Some? && failure.value.IllegalArgumentException? && !isSecondTryAfterConfigureError {
        ghost var retry := Attempt(request, cameraId, hw, first.session, true);
        assert ConfigurePass(request, cameraId, hw, first.session, true) == retry;
        thrown := ConfigureCamera(cameraId, hw, true);
        AppendAssociative(old(events), first.log, retry.log);
      } else {
        thrown := failure;
      }
    }
  }
}
