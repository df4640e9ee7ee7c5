/** The parts of the camera view that only compute from its React props: the output
    rotation chosen from the `orientation` prop, the reconfiguration flags that a set
    of changed props raises, and the clamped zoom factor. */
module Props {
  import opened Wrappers
  import opened Platform

  /** The four values of the TypeScript `orientation` union, indexed by the rotation
      constant each stands for. */
  const OrientationNames: seq<string> := ["portrait", "landscapeRight", "portraitUpsideDown", "landscapeLeft"]

  /** The orientation name of a rotation constant: the reference table that
      `OutputRotation` is checked against. */
  function OrientationName(rotation: int): (name: string)
    requires ROTATION_0 <= rotation <= ROTATION_270
    ensures name in OrientationNames
  {
    OrientationNames[rotation]
  }

  /** The rotation of captured output: the user's `orientation` override when set,
      otherwise the display's own rotation; an unknown orientation string throws. */
  function OutputRotation(orientation: Option<string>, inputRotation: int): (r: Result<int, Error>)
    ensures orientation.None? ==> r == Ok(inputRotation)
    ensures orientation.Some? ==> (r.Ok? <==> orientation.value in OrientationNames)
    ensures orientation.Some? && r.Ok? ==> ROTATION_0 <= r.value <= ROTATION_270
    ensures orientation.Some? && r.Err? ==> r.error == InvalidTypeScriptUnionError("orientation", orientation.value)
  {
    match orientation
    case None => Ok(inputRotation)
    case Some(o) =>
      if o == "portrait" then Ok(ROTATION_0)
      else if o == "landscapeRight" then Ok(ROTATION_90)
      else if o == "portraitUpsideDown" then Ok(ROTATION_180)
      else if o == "landscapeLeft" then Ok(ROTATION_270)
      else Err(InvalidTypeScriptUnionError("orientation", o))
  }

  /** Each orientation name maps back to the rotation constant it names, whatever the
      display's rotation, and an accepted name determines its rotation: the mapping is
      the inverse of `OrientationName`, so the four names give four distinct rotations. */
  lemma OutputRotationInvertsName(rotation: int, name: string, inputRotation: int)
    requires ROTATION_0 <= rotation <= ROTATION_270
    ensures OutputRotation(Some(OrientationName(rotation)), inputRotation) == Ok(rotation)
    ensures OutputRotation(Some(name), inputRotation) == Ok(rotation) ==> name == OrientationName(rotation)
  {
  }

  /** The props whose change makes the session be reconfigured. */
  const PropsThatRequireSessionReconfiguration: seq<string> :=
    ["cameraId", "format", "fps", "hdr", "lowLightBoost", "photo", "video", "enableFrameProcessor"]

  /** `containsAny` on a list: whether some element of `ys` occurs in `xs`. */
  function ContainsAny(xs: seq<string>, ys: seq<string>): (r: bool)
    ensures r <==> exists y :: y in ys && y in xs
  {
    if ys == [] then false
    else ys[0] in xs || ContainsAny(xs, ys[1..])
  }

  /** What one `update()` call decides to reconfigure. */
  datatype UpdatePlan = UpdatePlan(
    reconfigureSession: bool,
    reconfigureZoom: bool,
    reconfigureTorch: bool,
    updateOrientation: bool)

  /** The flags `update()` computes from the names of the changed props. A session
      reconfiguration implies every other reconfiguration; without it, each of zoom,
      torch and orientation is reconfigured exactly when its own prop changed. */
  function UpdateFlags(changedProps: seq<string>): (plan: UpdatePlan)
    ensures plan.reconfigureSession <==>
      exists p :: p in changedProps && p in {"cameraId", "format", "fps", "hdr", "lowLightBoost", "photo", "video", "enableFrameProcessor"}
    ensures plan.reconfigureSession ==> plan.reconfigureZoom && plan.reconfigureTorch && plan.updateOrientation
    ensures !plan.reconfigureSession ==>
      (plan.reconfigureZoom <==> "zoom" in changedProps) &&
      (plan.reconfigureTorch <==> "torch" in changedProps) &&
      (plan.updateOrientation <==> "orientation" in changedProps)
  {
    var session := ContainsAny(changedProps, PropsThatRequireSessionReconfiguration);
    UpdatePlan(
      session,
      session || "zoom" in changedProps,
      session || "torch" in changedProps,
      session || "orientation" in changedProps)
  }

  /** Changing only props that do not touch the session (torch, zoom, orientation,
      isActive) never reconfigures the session, and a lone "torch" change reconfigures
      the torch and nothing else. */
  lemma {:induction false} NonSessionPropsKeepSession(changedProps: seq<string>)
    requires forall p :: p in changedProps ==> p in {"torch", "zoom", "orientation", "isActive"}
    ensures !UpdateFlags(changedProps).reconfigureSession
    ensures changedProps == ["torch"] ==> UpdateFlags(changedProps) == UpdatePlan(false, false, true, false)
  {
  }

  /** `max(min(zoom, maxZoom), minZoom)`: within [minZoom, maxZoom] when that range is
      not empty, unchanged when already in range, and minZoom when the range is empty. */
  function ClampZoom(zoom: real, minZoom: real, maxZoom: real): (r: real)
    ensures minZoom <= maxZoom ==> minZoom <= r <= maxZoom
    ensures minZoom <= zoom <= maxZoom ==> r == zoom
    ensures maxZoom < minZoom ==> r == minZoom
  {
    var m := if zoom <= maxZoom then zoom else maxZoom;
    if m >= minZoom then m else minZoom
  }
}
