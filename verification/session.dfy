/** The capture-session negotiation of `configureCamera`, as functions of the view's
    props and of the hardware: pixel format and sizes, the ordered list of outputs,
    the targets of the repeating request, and one whole configuration pass with its
    single retry. The class in module CameraView runs these steps in place; the
    lemmas here state what a pass promises. */
module Session {
  import opened Wrappers
  import opened Platform

  /** The use-cases and target sizes one configuration pass reads from the props. */
  datatype StreamRequest = StreamRequest(
    useVideo: bool,
    usePhoto: bool,
    usePreview: bool,
    targetVideoSize: Option<Size>,
    targetPhotoSize: Option<Size>)

  /** `getVideoFormat`: YUV_420_888 when the device offers it, otherwise the first
      format it reports; with no format at all, `formats[0]` throws. */
  function VideoFormat(formats: seq<int>): (r: Result<int, Error>)
    ensures YUV_420_888 in formats ==> r == Ok(YUV_420_888)
    ensures YUV_420_888 !in formats && formats != [] ==> r == Ok(formats[0])
    ensures r.Err? <==> formats == []
    ensures r.Err? ==> r.error == ArrayIndexOutOfBoundsException(0)
    ensures r.Ok? ==> r.value in formats
  {
    if YUV_420_888 in formats then Ok(YUV_420_888)
    else if |formats| == 0 then Err(ArrayIndexOutOfBoundsException(0))
    else Ok(formats[0])
  }

  /** Position of an output type in the output list. */
  function Rank(t: OutputType): nat
  {
    match t
    case Video => 0
    case Photo => 1
    case Preview => 2
  }

  /** Whether `outputs` holds an output of type `t`. */
  predicate HasOutput(outputs: seq<SurfaceOutput>, t: OutputType)
  {
    exists i :: 0 <= i < |outputs| && outputs[i].outputType == t
  }

  /** The outputs of the session, in the order the view adds them: a video output
      when video or frame processing is on, a photo output when photo is on, and the
      preview surface when the preview is native. `SessionOutputsShape` states what
      the list holds. */
  function SessionOutputs(useVideo: bool, usePhoto: bool, usePreview: bool,
                          videoSize: Size, videoFormat: int, photoSize: Size, isMirrored: bool): seq<SurfaceOutput>
  {
    (if useVideo then [SurfaceOutput(ImageReaderSurface(videoSize, videoFormat, 2), Video, isMirrored)] else []) +
    (if usePhoto then [SurfaceOutput(ImageReaderSurface(photoSize, JPEG, 1), Photo, isMirrored)] else []) +
    (if usePreview then [SurfaceOutput(PreviewSurface, Preview, isMirrored)] else [])
  }

  /** The output list has at most three entries, one per enabled use-case and none
      for a disabled one, in the order video, photo, preview. With every use-case
      off the list is empty. */
  lemma SessionOutputsShape(useVideo: bool, usePhoto: bool, usePreview: bool,
                            videoSize: Size, videoFormat: int, photoSize: Size, isMirrored: bool)
    ensures var outputs := SessionOutputs(useVideo, usePhoto, usePreview, videoSize, videoFormat, photoSize, isMirrored);
      |outputs| <= 3 &&
      (HasOutput(outputs, Video) <==> useVideo) &&
      (HasOutput(outputs, Photo) <==> usePhoto) &&
      (HasOutput(outputs, Preview) <==> usePreview) &&
      (outputs == [] <==> !useVideo && !usePhoto && !usePreview) &&
      (forall i, j :: 0 <= i < j < |outputs| ==> Rank(outputs[i].outputType) < Rank(outputs[j].outputType))
  {
    var video := if useVideo then [SurfaceOutput(ImageReaderSurface(videoSize, videoFormat, 2), Video, isMirrored)] else [];
    var photo := if usePhoto then [SurfaceOutput(ImageReaderSurface(photoSize, JPEG, 1), Photo, isMirrored)] else [];
    var preview := if usePreview then [SurfaceOutput(PreviewSurface, Preview, isMirrored)] else [];
    var outputs := video + photo + preview;
    assert outputs == SessionOutputs(useVideo, usePhoto, usePreview, videoSize, videoFormat, photoSize, isMirrored);
    assert useVideo ==> outputs[0].outputType == Video;
    assert usePhoto ==> outputs[|video|].outputType == Photo;
    assert usePreview ==> outputs[|video| + |photo|].outputType == Preview;
  }

  /** The video output is an ImageReader of the video size and format with two
      buffers, the photo output a JPEG ImageReader of the photo size with one
      buffer, the preview output the preview surface; all carry the lens's
      mirroring flag. */
  lemma SessionOutputsSurfaces(useVideo: bool, usePhoto: bool, usePreview: bool,
                               videoSize: Size, videoFormat: int, photoSize: Size, isMirrored: bool)
    ensures var outputs := SessionOutputs(useVideo, usePhoto, usePreview, videoSize, videoFormat, photoSize, isMirrored);
      (forall o :: o in outputs ==> o.isMirrored == isMirrored) &&
      (forall o :: o in outputs && o.outputType == Video ==> o.surface == ImageReaderSurface(videoSize, videoFormat, 2)) &&
      (forall o :: o in outputs && o.outputType == Photo ==> o.surface == ImageReaderSurface(photoSize, JPEG, 1)) &&
      (forall o :: o in outputs && o.outputType == Preview ==> o.surface == PreviewSurface)
  {
  }

  /** The exception thrown while the outputs are built, if any: the video
      ImageReader is created first, when video or frame processing is on, then the
      photo ImageReader, when photo is on; the first creation that throws ends the
      build. */
  function ReaderFailure(useVideo: bool, usePhoto: bool, videoSize: Size, videoFormat: int, photoSize: Size,
                         hw: Hardware): (r: Option<Error>)
    ensures r.None? <==>
      (useVideo ==> hw.newImageReader(videoSize, videoFormat, 2).None?) &&
      (usePhoto ==> hw.newImageReader(photoSize, JPEG, 1).None?)
    ensures useVideo && hw.newImageReader(videoSize, videoFormat, 2).Some? ==>
      r == hw.newImageReader(videoSize, videoFormat, 2)
    ensures r.Some? && !(useVideo && hw.newImageReader(videoSize, videoFormat, 2).Some?) ==>
      usePhoto && r == hw.newImageReader(photoSize, JPEG, 1)
  {
    if useVideo && hw.newImageReader(videoSize, videoFormat, 2).Some? then hw.newImageReader(videoSize, videoFormat, 2)
    else if usePhoto then hw.newImageReader(photoSize, JPEG, 1)
    else None
  }

  /** The surfaces of the repeating outputs, in output order. */
  function RepeatingTargets(outputs: seq<SurfaceOutput>): seq<Surface>
  {
    if outputs == [] then []
    else
      var last := outputs[|outputs| - 1];
      RepeatingTargets(outputs[..|outputs| - 1]) + (if IsRepeating(last) then [last.surface] else [])
  }

  /** The repeating request targets exactly the surfaces of the repeating outputs
      (video and preview, never photo), no more targets than there are outputs. */
  lemma {:induction false} RepeatingTargetsExactly(outputs: seq<SurfaceOutput>)
    ensures |RepeatingTargets(outputs)| <= |outputs|
    ensures forall s :: s in RepeatingTargets(outputs) <==> exists o :: o in outputs && IsRepeating(o) && o.surface == s
  {
    if outputs != [] {
      var last := outputs[|outputs| - 1];
      var front := outputs[..|outputs| - 1];
      assert outputs == front + [last];
      RepeatingTargetsExactly(front);
    }
  }

  /** The loop that adds every repeating output's surface to the capture request:
      it collects exactly the repeating surfaces, in output order. */
  method AddRepeatingTargets(outputs: seq<SurfaceOutput>) returns (targets: seq<Surface>)
    ensures targets == RepeatingTargets(outputs)
  {
    targets := [];
    var i := 0;
    while i < |outputs|
      invariant 0 <= i <= |outputs|
      invariant targets == RepeatingTargets(outputs[..i])
    {
      assert outputs[..i + 1][..i] == outputs[..i];
      if IsRepeating(outputs[i]) {
        targets := targets + [outputs[i].surface];
      }
      i := i + 1;
    }
    assert outputs[..i] == outputs;
  }

  /** The result of (part of) a configuration pass: the events it produced, the
      `cameraSession` field afterwards and the exception it let escape, if any. */
  datatype PassResult = PassResult(log: seq<Event>, session: Option<CaptureSession>, thrown: Option<Error>)

  /** The `try` block of `configureCamera`: create the session over `outputs`, then
      submit one repeating request over the repeating outputs, then report readiness.
      The session field is replaced as soon as creation succeeds. */
  function Submit(cameraId: string, outputs: seq<SurfaceOutput>, hw: Hardware, attempt: nat,
                  session: Option<CaptureSession>): PassResult
  {
    var requested := [CaptureSessionRequested(outputs)];
    match hw.createCaptureSession(attempt, outputs)
    case Some(e) => PassResult(requested, session, Some(e))
    case None =>
      var created := CaptureSession(cameraId, outputs);
      var targets := RepeatingTargets(outputs);
      var submitted := requested + [RepeatingRequestSubmitted(targets)];
      match hw.setRepeatingRequest(attempt, targets)
      case Some(e) => PassResult(submitted, Some(created), Some(e))
      case None => PassResult(submitted + [Initialized], Some(created), None)
  }

  /** The `try` block asks for exactly one session, first; it reports readiness
      exactly when neither session call threw, and then only after the repeating
      request over the repeating outputs of the new session, which it holds; an
      exception it ends with is one that a session call threw. */
  lemma SubmitFacts(cameraId: string, outputs: seq<SurfaceOutput>, hw: Hardware, attempt: nat,
                    session: Option<CaptureSession>)
    ensures var r := Submit(cameraId, outputs, hw, attempt, session);
      |r.log| >= 1 && r.log[0] == CaptureSessionRequested(outputs) &&
      (forall i :: 1 <= i < |r.log| ==> !r.log[i].CaptureSessionRequested?) &&
      ViewReady !in r.log &&
      (r.thrown.None? <==> Initialized in r.log) &&
      (r.thrown.None? ==>
        r.session == Some(CaptureSession(cameraId, outputs)) &&
        r.log == [CaptureSessionRequested(outputs), RepeatingRequestSubmitted(RepeatingTargets(outputs)), Initialized]) &&
      (r.thrown.Some? ==>
        r.thrown == hw.createCaptureSession(attempt, outputs) ||
        r.thrown == hw.setRepeatingRequest(attempt, RepeatingTargets(outputs)))
  {
  }

  /** The video size negotiated for a request from the sizes the device offers for
      the chosen video format. */
  function VideoSize(request: StreamRequest, config: StreamConfigurationMap, videoFormat: int, hw: Hardware): Size
  {
    hw.closestToOrMax(config.outputSizes(videoFormat), request.targetVideoSize)
  }

  /** The photo size: closest JPEG size on the first attempt, the negotiated video
      size on the retry. */
  function PhotoSize(request: StreamRequest, config: StreamConfigurationMap, videoFormat: int, hw: Hardware,
                     isSecondTry: bool): Size
  {
    if isSecondTry then VideoSize(request, config, videoFormat, hw)
    else hw.closestToOrMax(config.outputSizes(JPEG), request.targetPhotoSize)
  }

  /** The exception one attempt throws while creating its ImageReaders. */
  function AttemptReaderFailure(request: StreamRequest, config: StreamConfigurationMap, videoFormat: int,
                                hw: Hardware, isSecondTry: bool): Option<Error>
  {
    ReaderFailure(request.useVideo, request.usePhoto, VideoSize(request, config, videoFormat, hw), videoFormat,
      PhotoSize(request, config, videoFormat, hw, isSecondTry), hw)
  }

  /** The outputs one attempt builds once the device's stream configuration is known
      and a video format has been chosen. */
  function AttemptOutputs(request: StreamRequest, config: StreamConfigurationMap, videoFormat: int,
                          isMirrored: bool, hw: Hardware, isSecondTry: bool): seq<SurfaceOutput>
  {
    SessionOutputs(request.useVideo, request.usePhoto, request.usePreview,
      VideoSize(request, config, videoFormat, hw), videoFormat,
      PhotoSize(request, config, videoFormat, hw, isSecondTry), isMirrored)
  }

  /** The event recording `cameraSession?.close()`. */
  function CloseLog(session: Option<CaptureSession>): seq<Event>
  {
    if session.Some? then [SessionClosed(session.value)] else []
  }

  /** The attempt number of a pass: 0 for the first, 1 for the retry. */
  function AttemptIndex(isSecondTry: bool): nat
  {
    if isSecondTry then 1 else 0
  }

  /** Whether an exception makes a first attempt retry. */
  predicate Retryable(thrown: Option<Error>)
  {
    thrown.Some? && thrown.value.IllegalArgumentException?
  }

  /** The outputs of the session, in order, after reading the characteristics,
      negotiating format and sizes and creating the ImageReaders. A missing stream
      configuration map fails the `!!`, a device without any output format fails
      `formats[0]`, and an ImageReader creation can throw. All of this happens before
      the `try` block, so none of these exceptions is caught. */
  function Negotiate(request: StreamRequest, characteristics: Characteristics, hw: Hardware, isSecondTry: bool)
    : Result<seq<SurfaceOutput>, Error>
  {
    match characteristics.streamConfig
    case None => Err(NullPointerException)
    case Some(config) =>
      match VideoFormat(config.outputFormats)
      case Err(e) => Err(e)
      case Ok(videoFormat) =>
        var isMirrored := characteristics.lensFacing == Some(LENS_FACING_FRONT);
        match AttemptReaderFailure(request, config, videoFormat, hw, isSecondTry)
        case Some(e) => Err(e)
        case None => Ok(AttemptOutputs(request, config, videoFormat, isMirrored, hw, isSecondTry))
  }

  /** Negotiation fails with a NullPointerException exactly when the stream
      configuration map is missing, with an ArrayIndexOutOfBoundsException when it
      reports no format, and otherwise exactly when an ImageReader creation throws,
      with that exception; on the second try every photo output has the negotiated
      video size. */
  lemma NegotiateFacts(request: StreamRequest, characteristics: Characteristics, hw: Hardware, isSecondTry: bool)
    ensures var r := Negotiate(request, characteristics, hw, isSecondTry);
      (characteristics.streamConfig.None? ==> r == Err(NullPointerException)) &&
      (characteristics.streamConfig.Some? && characteristics.streamConfig.value.outputFormats == [] ==>
        r == Err(ArrayIndexOutOfBoundsException(0))) &&
      (characteristics.streamConfig.Some? && characteristics.streamConfig.value.outputFormats != [] ==>
        var config := characteristics.streamConfig.value;
        var failure := AttemptReaderFailure(request, config, VideoFormat(config.outputFormats).value, hw, isSecondTry);
        (r.Err? <==> failure.Some?) && (failure.Some? ==> r.error == failure.value)) &&
      (r.Ok? && isSecondTry ==>
        var config := characteristics.streamConfig.value;
        var videoFormat := VideoFormat(config.outputFormats).value;
        forall o :: o in r.value && o.outputType == Photo ==>
          o.surface == ImageReaderSurface(VideoSize(request, config, videoFormat, hw), JPEG, 1))
  {
    var r := Negotiate(request, characteristics, hw, isSecondTry);
    if r.Ok? {
      var config := characteristics.streamConfig.value;
      var videoFormat := VideoFormat(config.outputFormats).value;
      var isMirrored := characteristics.lensFacing == Some(LENS_FACING_FRONT);
      SessionOutputsSurfaces(request.useVideo, request.usePhoto, request.usePreview,
        VideoSize(request, config, videoFormat, hw), videoFormat,
        PhotoSize(request, config, videoFormat, hw, isSecondTry), isMirrored);
    }
  }

  /** The outputs of every session creation requested in `log`, in order. */
  function Requests(log: seq<Event>): seq<seq<SurfaceOutput>>
  {
    if log == [] then []
    else (if log[0].CaptureSessionRequested? then [log[0].outputs] else []) + Requests(log[1..])
  }

  /** The requests of a concatenated log are those of its parts, in order. */
  lemma {:induction false} RequestsAppend(a: seq<Event>, b: seq<Event>)
    ensures Requests(a + b) == Requests(a) + Requests(b)
  {
    if a != [] {
      assert (a + b)[1..] == a[1..] + b;
      RequestsAppend(a[1..], b);
    } else {
      assert a + b == b;
    }
  }

  /** A log without a session-creation event holds no request. */
  lemma {:induction false} NoRequests(log: seq<Event>)
    requires forall i :: 0 <= i < |log| ==> !log[i].CaptureSessionRequested?
    ensures Requests(log) == []
  {
    if log != [] {
      NoRequests(log[1..]);
    }
  }

  /** `log` ends with the repeating request over the repeating outputs of `session`
      followed by the one readiness report it holds. */
  predicate EndsReady(log: seq<Event>, session: CaptureSession)
  {
    |log| >= 2 &&
    log[|log| - 2] == RepeatingRequestSubmitted(RepeatingTargets(session.outputs)) &&
    log[|log| - 1] == Initialized &&
    Initialized !in log[..|log| - 1]
  }

  /** Events without a readiness report before a log that ends ready keep it ending
      ready. */
  lemma EndsReadyAfter(prefix: seq<Event>, log: seq<Event>, session: CaptureSession)
    requires Initialized !in prefix
    requires EndsReady(log, session)
    ensures EndsReady(prefix + log, session)
  {
    var whole := prefix + log;
    assert whole[..|whole| - 1] == prefix + log[..|log| - 1];
  }

  /** One attempt: `cameraSession?.close()`, then negotiation, then the `try` block.
      What it promises is stated by `AttemptRequests` and `AttemptReady`. */
  function Attempt(request: StreamRequest, cameraId: string, hw: Hardware,
                   session: Option<CaptureSession>, isSecondTry: bool): PassResult
  {
    var closing := CloseLog(session);
    match Negotiate(request, hw.characteristics(cameraId), hw, isSecondTry)
    case Err(e) => PassResult(closing, session, Some(e))
    case Ok(outputs) =>
      var s := Submit(cameraId, outputs, hw, AttemptIndex(isSecondTry), session);
      PassResult(closing + s.log, s.session, s.thrown)
  }

  /** One attempt closes the held session first, asks for at most one session
      (exactly when negotiation succeeded, over the negotiated outputs) and never
      reports view-ready; a failed negotiation is what it throws, and it leaves the
      session field alone. */
  lemma AttemptRequests(request: StreamRequest, cameraId: string, hw: Hardware,
                        session: Option<CaptureSession>, isSecondTry: bool)
    ensures var r := Attempt(request, cameraId, hw, session, isSecondTry);
            var n := Negotiate(request, hw.characteristics(cameraId), hw, isSecondTry);
            (session.Some? ==> |r.log| >= 1 && r.log[0] == SessionClosed(session.value)) &&
            ViewReady !in r.log &&
            Requests(r.log) == (if n.Ok? then [n.value] else []) &&
            (n.Err? ==> r.thrown == Some(n.error) && r.session == session)
  {
    var closing := CloseLog(session);
    assert Requests(closing) == [] by {
      if session.Some? { assert closing[1..] == []; }
    }
    NegotiateFacts(request, hw.characteristics(cameraId), hw, isSecondTry);
    match Negotiate(request, hw.characteristics(cameraId), hw, isSecondTry)
    case Err(e) =>
    case Ok(outputs) =>
      var s := Submit(cameraId, outputs, hw, AttemptIndex(isSecondTry), session);
      SubmitFacts(cameraId, outputs, hw, AttemptIndex(isSecondTry), session);
      NoRequests(s.log[1..]);
      assert Requests(s.log) == [outputs];
      RequestsAppend(closing, s.log);
  }

  /** One attempt reports readiness exactly when it succeeds, and then as its last
      event, right after the repeating request of the session it now holds. */
  lemma AttemptReady(request: StreamRequest, cameraId: string, hw: Hardware,
                     session: Option<CaptureSession>, isSecondTry: bool)
    ensures var r := Attempt(request, cameraId, hw, session, isSecondTry);
            (Initialized in r.log <==> r.thrown.None?) &&
            (r.thrown.None? ==> r.session.Some? && r.session.value.cameraId == cameraId && EndsReady(r.log, r.session.value))
  {
    var closing := CloseLog(session);
    assert Initialized !in closing;
    match Negotiate(request, hw.characteristics(cameraId), hw, isSecondTry)
    case Err(e) =>
    case Ok(outputs) =>
      var s := Submit(cameraId, outputs, hw, AttemptIndex(isSecondTry), session);
      SubmitFacts(cameraId, outputs, hw, AttemptIndex(isSecondTry), session);
      if s.thrown.None? {
        EndsReadyAfter(closing, s.log, s.session.value);
      }
  }

  /** One attempt as its two outcomes: negotiation fails after the close, or the
      negotiated outputs are submitted after it. */
  lemma AttemptUnfolds(request: StreamRequest, cameraId: string, hw: Hardware,
                       session: Option<CaptureSession>, isSecondTry: bool)
    ensures var n := Negotiate(request, hw.characteristics(cameraId), hw, isSecondTry);
            var a := Attempt(request, cameraId, hw, session, isSecondTry);
            if n.Err? then a == PassResult(CloseLog(session), session, Some(n.error))
            else
              var s := Submit(cameraId, n.value, hw, AttemptIndex(isSecondTry), session);
              a == PassResult(CloseLog(session) + s.log, s.session, s.thrown)
  {
  }

  /** Whether the `try` block of an attempt threw an IllegalArgumentException, the
      exception its `catch` handles: negotiation succeeded, so the exception came from
      the session calls. */
  predicate Rejected(request: StreamRequest, cameraId: string, hw: Hardware,
                     session: Option<CaptureSession>, isSecondTry: bool)
  {
    Negotiate(request, hw.characteristics(cameraId), hw, isSecondTry).Ok? &&
    Retryable(Attempt(request, cameraId, hw, session, isSecondTry).thrown)
  }

  /** One run of `configureCamera(camera, isSecondTry)` on camera `cameraId`, starting
      with `session` in the `cameraSession` field: one attempt, and when the `try`
      block of a first attempt is rejected with an IllegalArgumentException, the run
      once more as the second try, starting from the session field the first attempt
      left. */
  function ConfigurePass(request: StreamRequest, cameraId: string, hw: Hardware,
                         session: Option<CaptureSession>, isSecondTry: bool): PassResult
    decreases if isSecondTry then 0 else 1
  {
    var first := Attempt(request, cameraId, hw, session, isSecondTry);
    if !isSecondTry && Rejected(request, cameraId, hw, session, isSecondTry) then
      var retry := ConfigurePass(request, cameraId, hw, first.session, true);
      PassResult(first.log + retry.log, retry.session, retry.thrown)
    else
      first
  }

  /** Retry-once law: a pass asks for at most two session creations (one when it is
      already the retry). The first uses the negotiated photo size; a second exists
      exactly when the first attempt's session calls were rejected with an
      IllegalArgumentException and the retry's negotiation succeeds, and it uses the negotiated video size for the photo output. */
  lemma {:induction false} AtMostOneRetry(request: StreamRequest, cameraId: string, hw: Hardware,
                                          session: Option<CaptureSession>, isSecondTry: bool)
    ensures var p := ConfigurePass(request, cameraId, hw, session, isSecondTry);
            var first := Attempt(request, cameraId, hw, session, isSecondTry);
            var requests := Requests(p.log);
            |requests| <= (if isSecondTry then 1 else 2) &&
            (|requests| == 2 <==> !isSecondTry && Rejected(request, cameraId, hw, session, isSecondTry) &&
                                  Negotiate(request, hw.characteristics(cameraId), hw, true).Ok?) &&
            (|requests| >= 1 ==> Negotiate(request, hw.characteristics(cameraId), hw, isSecondTry).Ok? &&
                                  requests[0] == Negotiate(request, hw.characteristics(cameraId), hw, isSecondTry).value) &&
            (|requests| == 2 ==> Negotiate(request, hw.characteristics(cameraId), hw, true).Ok? &&
                                  requests[1] == Negotiate(request, hw.characteristics(cameraId), hw, true).value)
  {
    var first := Attempt(request, cameraId, hw, session, isSecondTry);
    AttemptRequests(request, cameraId, hw, session, isSecondTry);
    if !isSecondTry && Rejected(request, cameraId, hw, session, isSecondTry) {
      var retry := ConfigurePass(request, cameraId, hw, first.session, true);
      assert retry == Attempt(request, cameraId, hw, first.session, true);
      AttemptRequests(request, cameraId, hw, first.session, true);
      RequestsAppend(first.log, retry.log);
    }
  }

  /** A rejection by the session calls escapes a first pass only after the retry was
      rejected too: when both attempts get past negotiation and an
      IllegalArgumentException is what the pass throws, two sessions were asked for.
      Conversely, a first attempt rejected in its `try` block is followed by the
      retry, and when the retry gets past negotiation the pass asks for two sessions
      and ends with whatever the retry throws, so a second rejection is rethrown. */
  lemma {:induction false} RejectionRethrownAfterRetry(request: StreamRequest, cameraId: string, hw: Hardware,
                                                       session: Option<CaptureSession>)
    ensures var p := ConfigurePass(request, cameraId, hw, session, false);
            (Retryable(p.thrown) &&
             Negotiate(request, hw.characteristics(cameraId), hw, false).Ok? &&
             Negotiate(request, hw.characteristics(cameraId), hw, true).Ok?) ==> |Requests(p.log)| == 2
    ensures var p := ConfigurePass(request, cameraId, hw, session, false);
            var first := Attempt(request, cameraId, hw, session, false);
            Rejected(request, cameraId, hw, session, false) &&
            Negotiate(request, hw.characteristics(cameraId), hw, true).Ok? ==>
              |Requests(p.log)| == 2 &&
              p.thrown == Attempt(request, cameraId, hw, first.session, true).thrown
  {
    var first := Attempt(request, cameraId, hw, session, false);
    AttemptRequests(request, cameraId, hw, session, false);
    if Rejected(request, cameraId, hw, session, false) {
      var retry := ConfigurePass(request, cameraId, hw, first.session, true);
      assert retry == Attempt(request, cameraId, hw, first.session, true);
      AttemptRequests(request, cameraId, hw, first.session, true);
      RequestsAppend(first.log, retry.log);
    }
  }

  /** An exception thrown before the `try` block (a missing stream configuration, no
      format, an ImageReader that cannot be created) is never retried: the pass ends
      after the close with that exception, the session field unchanged and no session
      asked for. */
  lemma {:induction false} NegotiationFailureNotRetried(request: StreamRequest, cameraId: string, hw: Hardware,
                                                        session: Option<CaptureSession>, isSecondTry: bool)
    ensures var n := Negotiate(request, hw.characteristics(cameraId), hw, isSecondTry);
            var p := ConfigurePass(request, cameraId, hw, session, isSecondTry);
            n.Err? ==> p == PassResult(CloseLog(session), session, Some(n.error)) && Requests(p.log) == []
  {
    AttemptRequests(request, cameraId, hw, session, isSecondTry);
    AttemptUnfolds(request, cameraId, hw, session, isSecondTry);
  }

  /** The pass result as the sum of its attempts: the first, and the retry when the
      first was rejected. */
  lemma PassUnfolds(request: StreamRequest, cameraId: string, hw: Hardware,
                    session: Option<CaptureSession>, isSecondTry: bool)
    ensures var p := ConfigurePass(request, cameraId, hw, session, isSecondTry);
            var first := Attempt(request, cameraId, hw, session, isSecondTry);
            if !isSecondTry && Rejected(request, cameraId, hw, session, isSecondTry) then
              var retry := Attempt(request, cameraId, hw, first.session, true);
              p == PassResult(first.log + retry.log, retry.session, retry.thrown)
            else p == first
  {
  }

  /** Readiness is reported exactly when the pass succeeds. */
  lemma {:induction false} InitializedIffSucceeded(request: StreamRequest, cameraId: string, hw: Hardware,
                                                   session: Option<CaptureSession>, isSecondTry: bool)
    ensures var p := ConfigurePass(request, cameraId, hw, session, isSecondTry);
            Initialized in p.log <==> p.thrown.None?
  {
    PassUnfolds(request, cameraId, hw, session, isSecondTry);
    var first := Attempt(request, cameraId, hw, session, isSecondTry);
    AttemptReady(request, cameraId, hw, session, isSecondTry);
    if !isSecondTry && Rejected(request, cameraId, hw, session, isSecondTry) {
      AttemptReady(request, cameraId, hw, first.session, true);
      assert Initialized !in first.log;
    }
  }

  /** A successful pass ends by submitting the repeating request over the repeating
      outputs of the session now held in `cameraSession` and then reporting readiness,
      once, as its last event. */
  lemma {:induction false} InitializedOnlyAfterRepeatingRequest(request: StreamRequest, cameraId: string, hw: Hardware,
                                                                session: Option<CaptureSession>, isSecondTry: bool)
    ensures var p := ConfigurePass(request, cameraId, hw, session, isSecondTry);
            p.thrown.None? ==> p.session.Some? && p.session.value.cameraId == cameraId && EndsReady(p.log, p.session.value)
  {
    PassUnfolds(request, cameraId, hw, session, isSecondTry);
    var first := Attempt(request, cameraId, hw, session, isSecondTry);
    AttemptReady(request, cameraId, hw, session, isSecondTry);
    if !isSecondTry && Rejected(request, cameraId, hw, session, isSecondTry) {
      var retry := Attempt(request, cameraId, hw, first.session, true);
      AttemptReady(request, cameraId, hw, first.session, true);
      if retry.thrown.None? {
        EndsReadyAfter(first.log, retry.log, retry.session.value);
      }
    }
  }

  /** The session held before the pass is closed before anything else happens, in
      particular before any new session is asked for. */
  lemma {:induction false} ClosesOldSessionFirst(request: StreamRequest, cameraId: string, hw: Hardware,
                                                 session: Option<CaptureSession>, isSecondTry: bool)
    requires session.Some?
    ensures var p := ConfigurePass(request, cameraId, hw, session, isSecondTry);
            |p.log| >= 1 && p.log[0] == SessionClosed(session.value)
  {
    AttemptRequests(request, cameraId, hw, session, isSecondTry);
    PassUnfolds(request, cameraId, hw, session, isSecondTry);
  }

  /** A configuration pass never reports the view as ready. */
  lemma {:induction false} PassNeverReportsViewReady(request: StreamRequest, cameraId: string, hw: Hardware,
                                                     session: Option<CaptureSession>, isSecondTry: bool)
    ensures ViewReady !in ConfigurePass(request, cameraId, hw, session, isSecondTry).log
  {
    var first := Attempt(request, cameraId, hw, session, isSecondTry);
    AttemptRequests(request, cameraId, hw, session, isSecondTry);
    if !isSecondTry && Rejected(request, cameraId, hw, session, isSecondTry) {
      var retry := ConfigurePass(request, cameraId, hw, first.session, true);
      assert retry == Attempt(request, cameraId, hw, first.session, true);
      AttemptRequests(request, cameraId, hw, first.session, true);
    }
  }
}
