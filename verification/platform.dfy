/** The Android and bridge surroundings of the camera view, reduced to values:
    platform constants, the exceptions the view can raise, the hardware the view
    talks to (as a record of oracles) and the log of observable effects. */
module Platform {
  import opened Wrappers

  // android.view.Surface rotation constants
  const ROTATION_0: int := 0
  const ROTATION_90: int := 1
  const ROTATION_180: int := 2
  const ROTATION_270: int := 3

  // android.graphics.ImageFormat pixel formats
  const YUV_420_888: int := 0x23
  const JPEG: int := 0x100

  // CameraCharacteristics.LENS_FACING values
  const LENS_FACING_FRONT: int := 0
  const LENS_FACING_BACK: int := 1

  /** android.util.Size */
  datatype Size = Size(width: int, height: int)

  /** The surface an output draws into: an ImageReader of a given size, pixel format and
      buffer depth, or the on-screen preview view's own surface. */
  datatype Surface =
    | ImageReaderSurface(size: Size, pixelFormat: int, maxImages: nat)
    | PreviewSurface

  /** The purpose of one output of the capture session. */
  datatype OutputType = Video | Photo | Preview

  /** One output of the capture session: its surface, purpose and mirroring flag. */
  datatype SurfaceOutput = SurfaceOutput(surface: Surface, outputType: OutputType, isMirrored: bool)

  /** Whether an output takes part in the repeating (continuous) capture request:
      video and preview do, a single-shot photo output does not. */
  predicate IsRepeating(output: SurfaceOutput)
  {
    output.outputType != Photo
  }

  /** An open camera session: the device it runs on and the outputs it was built from. */
  datatype CaptureSession = CaptureSession(cameraId: string, outputs: seq<SurfaceOutput>)

  /** Everything the view can throw or report. */
  datatype Error =
    | CameraPermissionError
    | NoCameraDeviceError
    | CameraDisconnectedError(cameraId: string)
    | CameraCannotBeOpenedError(cameraId: string, reason: string)
    | InvalidTypeScriptUnionError(unionName: string, unionValue: string)
    | IllegalArgumentException(message: string)
    | NullPointerException
    | ArrayIndexOutOfBoundsException(index: int)
    | PlatformException(description: string)

  /** SCALER_STREAM_CONFIGURATION_MAP: the pixel formats the device can stream and
      the sizes it supports for each of them. */
  datatype StreamConfigurationMap = StreamConfigurationMap(outputFormats: seq<int>, outputSizes: int -> seq<Size>)

  /** The camera characteristics the view reads; either entry may be absent (null). */
  datatype Characteristics = Characteristics(lensFacing: Option<int>, streamConfig: Option<StreamConfigurationMap>)

  /** The hardware and the helper functions whose bodies are not part of this model.
      `createCaptureSession` and `setRepeatingRequest` answer `None` when the call
      succeeds and `Some(e)` when it throws `e`; they are indexed by the attempt
      (0 for the first, 1 for the retry) so that the hardware may answer the two
      attempts of one pass differently. `newImageReader` stands for
      `ImageReader.newInstance(width, height, format, maxImages)`: `None` when it
      returns a reader, `Some(e)` when it throws `e` (an IllegalArgumentException for
      dimensions or a pixel format it does not accept). */
  datatype Hardware = Hardware(
    characteristics: string -> Characteristics,
    closestToOrMax: (seq<Size>, Option<Size>) -> Size,
    newImageReader: (Size, int, nat) -> Option<Error>,
    createCaptureSession: (nat, seq<SurfaceOutput>) -> Option<Error>,
    setRepeatingRequest: (nat, seq<Surface>) -> Option<Error>,
    parseCameraError: int -> string)

  /** How `cameraManager.openCamera` answers: one of its three device callbacks. */
  datatype OpenOutcome = Opened | Disconnected | OpenFailed(errorCode: int)

  /** The observable effects of the view, in the order they happen. The first three are
      the calls into the React bridge; the others are the calls into the camera. */
  datatype Event =
    | ViewReady
    | Initialized
    | ErrorReported(error: Error)
    | CameraOpenRequested(cameraId: string)
    | SessionClosed(session: CaptureSession)
    | CaptureSessionRequested(outputs: seq<SurfaceOutput>)
    | RepeatingRequestSubmitted(targets: seq<Surface>)
}
