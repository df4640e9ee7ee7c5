# CameraView capture-session model

A Dafny model of the Android `CameraView` of react-native-vision-camera
(`android/src/main/java/com/mrousavy/camera/CameraView.kt`). The view receives React
props, opens a camera device and builds a capture session that streams to up to three
outputs at once: a video or frame-processor ImageReader, a JPEG photo ImageReader and the
native preview surface. It then starts one repeating request over the continuous outputs.
When the hardware rejects the combination with an `IllegalArgumentException`, it retries
exactly once with the photo size replaced by the negotiated video size.

Files:

- `wrappers.dfy` (module `Wrappers`): `Option` and `Result`.
- `platform.dfy` (module `Platform`):
  - the Android constants the view uses (surface rotations, `YUV_420_888`, `JPEG`, lens facing);
  - sizes, surfaces, `SurfaceOutput`, capture sessions and the exceptions the view raises;
  - `Hardware`, a record of functions that stand for the camera, for `ImageReader.newInstance` and for the helpers whose bodies are not part of this model;
  - `Event`, the calls the view makes into the bridge and the camera.
- `props.dfy` (module `Props`): the code that only computes from props:
  - the `outputRotation` getter;
  - the flags computed by `update()`;
  - the zoom clamp.
- `session.dfy` (module `Session`): the negotiation in `configureCamera` as functions:
  - `getVideoFormat`, the output list and the repeating-request targets;
  - one attempt (`Attempt`);
  - a whole run with its single retry (`ConfigurePass`);
  - the lemmas about them.
- `camera_view.dfy` (module `CameraView`): class `CameraView`. It holds:
  - the props;
  - the `isMounted`, `isPreviewSurfaceReady` and `cameraSession` fields;
  - `events`, the log of calls made.

  Its methods are the view's callbacks, `update`, `configureSession` and `configureCamera`.
  `configureCamera` stays a recursive method, as in the Kotlin code. Its postcondition ties
  the new log, the new session field and the exception it lets escape to `ConfigurePass`.

Effects are modelled as follows:

- A bridge call (`invokeOnViewReady`, `invokeOnError`, `invokeOnInitialized`) appends an event to `events`.
- So does each camera call: `openCamera`, `close`, `createCaptureSession` and `setRepeatingRequest`.
- An exception that escapes a method is its `Option<Error>` result.
- The camera permission, the `openCamera` callback that fires and the hardware answers are parameters.

Behaviour of the code worth knowing, which the model keeps:

- A retry happens only after an `IllegalArgumentException` thrown inside the `try` block (lines 304-315). Any other exception, and any exception thrown before that block, escapes at once.
- `update()` does not reconfigure the session: its `configureSession()` call is commented out. Only `surfaceCreated` configures the session.
- On the configuration path, exceptions are not all turned into `onError`:
  - `configureSession` throws its permission and no-device errors to the caller;
  - `configureCamera` rethrows from its coroutine.
  On that path only the open callbacks report errors through `onError`.
- A failed pass can leave a session in `cameraSession`. When `setRepeatingRequest` throws, the field holds the new session. When `createCaptureSession` throws, it still holds the closed old one.
- The video format is `YUV_420_888` when offered and otherwise the first reported format. No other format is considered.

## Model

| member | source | states |
|---|---|---|
| Props.OrientationName | android/src/main/java/com/mrousavy/camera/CameraView.kt:115-119 | each rotation constant has one of the four orientation union names |
| Props.OutputRotation | android/src/main/java/com/mrousavy/camera/CameraView.kt:111-126 | with no override, the display rotation is used; an override is accepted exactly when it is one of the four names, and then gives a rotation constant in 0..3; any other string throws InvalidTypeScriptUnionError("orientation", value) |
| Props.OutputRotationInvertsName | android/src/main/java/com/mrousavy/camera/CameraView.kt:115-120 | each name maps back to the rotation it names whatever the display rotation, and only that name gives that rotation |
| Props.ContainsAny | android/src/main/java/com/mrousavy/camera/CameraView.kt:177 | true exactly when some prop of the reconfiguration list occurs among the changed props |
| Props.UpdateFlags | android/src/main/java/com/mrousavy/camera/CameraView.kt:175-180 | the session flag is raised exactly when one of the eight session props (line 69) changed; it implies the zoom, torch and orientation flags; without it, each of those is raised exactly when its own prop changed |
| Props.NonSessionPropsKeepSession | android/src/main/java/com/mrousavy/camera/CameraView.kt:175-187 | changing only torch, zoom, orientation or isActive never reconfigures the session, and a lone torch change raises only the torch flag |
| Props.ClampZoom | android/src/main/java/com/mrousavy/camera/CameraView.kt:188-189 | the clamped zoom lies in [minZoom, maxZoom] when that range is non-empty, is the zoom itself when already inside, and is minZoom when the range is empty |
| Session.VideoFormat | android/src/main/java/com/mrousavy/camera/CameraView.kt:330-339 | YUV_420_888 when offered, otherwise the first offered format; it fails, with index 0 out of bounds, exactly when no format is offered; a chosen format is always one the device offers |
| Session.SessionOutputsShape | android/src/main/java/com/mrousavy/camera/CameraView.kt:262-302 | at most three outputs; one of each type exactly when its use-case is on; empty exactly when all use-cases are off; in the order video, photo, preview |
| Session.SessionOutputsSurfaces | android/src/main/java/com/mrousavy/camera/CameraView.kt:262-302 | every output carries the lens's mirroring flag; the video output is a two-buffer ImageReader of the video size and format, the photo output a one-buffer JPEG ImageReader of the photo size, the preview output the preview surface |
| Session.ReaderFailure | android/src/main/java/com/mrousavy/camera/CameraView.kt:264-295 | the build throws nothing exactly when every enabled ImageReader is created; the video reader is created first, so its exception wins; otherwise the exception is the photo reader's |
| Session.RepeatingTargetsExactly | android/src/main/java/com/mrousavy/camera/CameraView.kt:307-311 | the repeating request targets exactly the surfaces of the video and preview outputs, and no surface used only by the photo output; there are never more targets than outputs |
| Session.AddRepeatingTargets | android/src/main/java/com/mrousavy/camera/CameraView.kt:308-311 | the `forEach` loop collects the repeating targets of the whole output list, in output order |
| Session.SubmitFacts | android/src/main/java/com/mrousavy/camera/CameraView.kt:304-315 | the try block asks for one session, first, and never for another; readiness is reported exactly when neither session call threw, and then the log is request, repeating request over the repeating targets, readiness, with the new session held; an exception comes from one of the two session calls |
| Session.NegotiateFacts | android/src/main/java/com/mrousavy/camera/CameraView.kt:239-260 | a missing stream configuration map gives NullPointerException, no format gives index 0 out of bounds, and otherwise negotiation fails exactly when an ImageReader creation throws, with that exception; on the second try every photo output has the negotiated video size |
| Session.AttemptRequests | android/src/main/java/com/mrousavy/camera/CameraView.kt:235-315 | one attempt closes the held session first; it asks for exactly the negotiated outputs when negotiation succeeds and for nothing otherwise; it never reports view-ready; when negotiation fails, its exception is what the attempt throws and the session field is unchanged |
| Session.AttemptReady | android/src/main/java/com/mrousavy/camera/CameraView.kt:304-315 | one attempt reports readiness exactly when it succeeds; it then holds a session on this camera and ends with the repeating request over that session's repeating outputs, followed by the only readiness report |
| Session.AtMostOneRetry | android/src/main/java/com/mrousavy/camera/CameraView.kt:316-327 | a run asks for at most two sessions, or one when it is already the retry; a second is asked for exactly when the first attempt's try block threw an IllegalArgumentException and the retry's negotiation succeeds; the first request holds the outputs negotiated for this try, the second those negotiated for the retry |
| Session.RejectionRethrownAfterRetry | android/src/main/java/com/mrousavy/camera/CameraView.kt:316-327 | when both attempts get past negotiation, an IllegalArgumentException escapes a first run only after two session requests, that is after the retry was rejected too; conversely, a first attempt rejected in its try block is retried, and when the retry gets past negotiation the run asks for two sessions and throws exactly what the retry throws, so a second rejection is rethrown |
| Session.NegotiationFailureNotRetried | android/src/main/java/com/mrousavy/camera/CameraView.kt:239-302 | an exception thrown before the try block (missing configuration map, no format, an ImageReader that cannot be created) is not caught: the run ends after the close with that exception, asks for no session and leaves the session field unchanged |
| Session.InitializedIffSucceeded | android/src/main/java/com/mrousavy/camera/CameraView.kt:304-327 | a whole run, retry included, reports readiness exactly when it throws nothing |
| Session.InitializedOnlyAfterRepeatingRequest | android/src/main/java/com/mrousavy/camera/CameraView.kt:307-315 | a successful run holds a session on this camera and ends with its repeating request followed by the only readiness report |
| Session.ClosesOldSessionFirst | android/src/main/java/com/mrousavy/camera/CameraView.kt:236-237 | the session held before a run is closed before anything else happens, so before a new session is asked for |
| Session.PassNeverReportsViewReady | android/src/main/java/com/mrousavy/camera/CameraView.kt:235-328 | a configuration run never reports view-ready |
| CameraView.AppendWithoutViewReady | android/src/main/java/com/mrousavy/camera/CameraView.kt:161-164 | appending calls other than view-ready keeps view-ready reported at most once and does not change whether it was reported |
| CameraView.BuildOutputs | android/src/main/java/com/mrousavy/camera/CameraView.kt:262-302 | the three steps that create the ImageReaders and call `outputs.add` throw ReaderFailure's exception when it has one, and otherwise build the output list whose shape SessionOutputsShape and SessionOutputsSurfaces state |
| CameraView.CameraView.constructor | android/src/main/java/com/mrousavy/camera/CameraView.kt:73-103 | a new view holds the props' defaults (native preview, zoom 1), is not mounted, holds no session, has no ready preview surface and has made no call |
| CameraView.CameraView.OnAttachedToWindow | android/src/main/java/com/mrousavy/camera/CameraView.kt:158-165 | the first attach mounts the view and reports view-ready, and later attaches do nothing; the view is mounted exactly when view-ready was reported, and view-ready is reported at most once |
| CameraView.CameraView.SurfaceCreated | android/src/main/java/com/mrousavy/camera/CameraView.kt:135-139 | the preview surface becomes ready; with no camera selected nothing else changes; with one selected, a missing permission throws CameraPermissionError and changes nothing, and otherwise the camera is opened and the log, session field and configuration exception are those OpenResult gives for the open outcome (an error report for a disconnect or an open error, a ConfigurePass run when opened) |
| CameraView.CameraView.SurfaceDestroyed | android/src/main/java/com/mrousavy/camera/CameraView.kt:145-148 | the preview surface is no longer ready |
| CameraView.CameraView.Update | android/src/main/java/com/mrousavy/camera/CameraView.kt:175-202 | the flags are UpdateFlags of the changed props; the zoom is clamped exactly when zoom is to be reconfigured, and to ClampZoom of the current zoom and bounds |
| CameraView.CameraView.ConfigureSession | android/src/main/java/com/mrousavy/camera/CameraView.kt:207-233 | no permission throws CameraPermissionError; then no camera throws NoCameraDeviceError; a throw changes nothing; otherwise the camera is opened once; a disconnect or an open error is reported as exactly one error naming the camera (with the parsed error code); an opened camera runs one ConfigurePass (both stated through OpenResult); view-ready stays reported at most once and exactly when mounted |
| CameraView.CameraView.CloseSession | android/src/main/java/com/mrousavy/camera/CameraView.kt:236-237 | the held session, if any, is closed; the field keeps it |
| CameraView.CameraView.CreateSessionAndStart | android/src/main/java/com/mrousavy/camera/CameraView.kt:304-315 | the log, session field and exception are those of Submit, with the targets built by the loop |
| CameraView.CameraView.NegotiateOutputs | android/src/main/java/com/mrousavy/camera/CameraView.kt:239-302 | the outputs built in place, or the exception thrown (including an ImageReader creation that throws), equal Negotiate of the current props and the camera's characteristics |
| CameraView.CameraView.RunAttempt | android/src/main/java/com/mrousavy/camera/CameraView.kt:235-315 | the close, negotiation and try block together change the log, session field and exception as Attempt states; the exception counts as thrown in the try block exactly when negotiation succeeded |
| CameraView.CameraView.ConfigureCamera | android/src/main/java/com/mrousavy/camera/CameraView.kt:235-328 | the recursive method, with its catch (only around the try block) and single self-call, changes the log, session field and exception exactly as ConfigurePass, so AtMostOneRetry, RejectionRethrownAfterRetry, InitializedIffSucceeded, InitializedOnlyAfterRepeatingRequest and ClosesOldSessionFirst hold of it |

## Left out

- Threads and coroutines are not modelled. This covers the camera queue, the video queue and `coroutineScope.launch`. `openCamera`'s callback runs synchronously inside `ConfigureSession`, and at most one callback fires per call.
- The ImageReader listeners that deliver frames and photos (lines 267-275, 286-290) are not modelled. They run after configuration.
- The `Frame` objects and the frame processor are not modelled either.
- Logging (`Log.i`/`Log.w`/`Log.e`) is not modelled.
- The view hierarchy set up in `init` (lines 132-133 and 150) is not modelled, because it concerns layout and not the camera session: `installHierarchyFitter`, the preview's `layoutParams` and `addView(previewView)`. The preview surface's callbacks registered there are modelled as `SurfaceCreated` and `SurfaceDestroyed`.
- `onConfigurationChanged` and `onDetachedFromWindow` (lines 153-156 and 167-170) are not modelled: they only call `super` and hold TODOs.
- The Android services are parameters of type `Hardware`, so their behaviour is not modelled: `getCameraCharacteristics`, `getOutputSizes`, `closestToOrMax`, `createCaptureSession`, `setRepeatingRequest` and `parseCameraError`. The closest-size choice is not part of this model.
- `SurfaceOutput.isRepeating` and `containsAny` are defined outside `CameraView.kt`, and those files are not part of this model. The model takes `isRepeating` to mean "not the photo output", which agrees with the comment at line 307. It takes `containsAny` to mean "some element of the argument occurs in the list".
- These exceptions are not modelled:
  - from `createCaptureRequest` and `build()`;
  - from `ReadableMap.getInt` on a malformed `format` prop;
  - from `openCamera` itself.
  A thrown create or submit call is modelled through the `Hardware` answers, and so is a thrown `ImageReader.newInstance`. Which dimensions and pixel formats `newInstance` rejects is up to the platform and is not part of this model.
- The camera permission is a boolean parameter, and the display rotation an integer parameter.
- Props the core code never reads are not fields: `audio`, `fps`, `hdr`, `lowLightBoost`, `isActive`, `torch`, the depth and portrait flags, and `frameProcessor`. Their names still count for `update()`.
- Update: the TODO actions after each flag are not modelled (zoom ratio, torch, orientation, lifecycle), because the source has none. The `catch` that reports a `Throwable` is not modelled because no modelled step of `update()` can throw.
- Props.ClampZoom: the zoom is a `real` rather than a 32-bit `Float`, so NaN and rounding are not modelled.
- `minZoom` and `maxZoom` are never updated by the source (only TODOs at lines 244-245). The model keeps them as fields, set to 1 by the constructor.
- `outputRotation` is modelled as the function `Props.OutputRotation`, with the display rotation as a parameter, because nothing in `CameraView.kt` reads the getter.
