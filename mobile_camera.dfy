/**
 * The camera modal of the mobile app. On the native platform it does
 * nothing of its own (the system camera takes over); in a browser it
 * tracks how the phone is held from the accelerometer's `gamma` angle and
 * uses that, not the window's shape, to decide whether a portrait stream
 * must be turned into a landscape picture. The stream bookkeeping is the
 * shared `StreamSession`.
 */
module MobileCamera {
  import opened Wrappers
  import opened CameraStreams

  /** The rotation a `gamma` reading (left-right tilt, in degrees) means:
      90 beyond 45, -90 below -45, 0 in between (both bounds included). */
  function GammaRotation(gamma: real): (r: int)
    ensures r == 90 <==> gamma > 45.0
    ensures r == -90 <==> gamma < -45.0
    ensures r == 0 <==> -45.0 <= gamma <= 45.0
  {
    if gamma > 45.0 then 90 else if gamma < -45.0 then -90 else 0
  }

  /** `rotationRef`, kept up to date by the `deviceorientation` listener,
      which is installed only outside the native platform. */
  class OrientationTracker {
    const native: bool
    var rotation: int

    ghost predicate Valid()
      reads this
    {
      rotation in {-90, 0, 90} && (native ==> rotation == 0)
    }

    constructor (isNative: bool)
      ensures Valid() && native == isNative && rotation == 0
    {
      native := isNative;
      rotation := 0;
    }

    /** One orientation event; a missing `gamma` leaves the rotation alone. */
    method HandleOrientation(gamma: Option<real>)
      requires Valid()
      modifies this`rotation
      ensures Valid()
      ensures native || gamma.None? ==> rotation == old(rotation)
      ensures !native && gamma.Some? ==> rotation == GammaRotation(gamma.value)
    {
      if native || gamma.None? {
        return;
      }
      rotation := GammaRotation(gamma.value);
    }
  }

  /** The constraints of the mobile `startCamera(deviceId)`: the exact device
      when one is given, otherwise the rear camera with no preferred size. */
  function StartConstraints(deviceId: string): (c: VideoConstraints)
    ensures deviceId != "" <==> c == ExactDevice(deviceId)
    ensures deviceId == "" ==> c == FacingEnvironment(None, None)
  {
    if deviceId != "" then ExactDevice(deviceId) else FacingEnvironment(None, None)
  }

  /** `startCamera`: nothing on the native platform; otherwise the session
      takes a new request with these constraints. */
  method StartCamera(session: StreamSession, deviceId: string)
    returns (request: Option<nat>, constraints: VideoConstraints)
    requires session.Valid()
    modifies session`requestId, session`stored, session`live, session`pending
    ensures session.Valid()
    ensures session.native ==> request.None? && session.live == old(session.live)
    ensures !session.native ==> request == Some(old(session.requestId) + 1) && session.live == {}
    ensures constraints == StartConstraints(deviceId)
  {
    request := session.BeginStart();
    constraints := StartConstraints(deviceId);
  }

  /** `handleCapture`'s geometry (`None` when the video, the canvas or its
      context is missing). A portrait stream (taller than wide) from a phone
      held sideways (tracked rotation of magnitude 90) gets the swapped
      canvas size and is turned by the tracked rotation; anything else keeps
      the stream's size and is not turned. A sideways phone never yields a
      picture taller than wide. */
  method PlanCapture(ready: bool, videoWidth: int, videoHeight: int, physicalRotation: int)
    returns (plan: Option<CanvasPlan>)
    ensures plan.Some? <==> ready
    ensures plan.Some? ==>
              var p := plan.value;
              var turned := videoHeight > videoWidth && (physicalRotation == 90 || physicalRotation == -90);
              && multiset{p.width, p.height} == multiset{videoWidth, videoHeight}
              && (turned ==> p.width == videoHeight && p.height == videoWidth && p.rotation == physicalRotation)
              && (!turned ==> p.width == videoWidth && p.height == videoHeight && p.rotation == 0)
              && ((physicalRotation == 90 || physicalRotation == -90) ==> p.width >= p.height)
  {
    if !ready {
      return None;
    }
    var isStreamPortrait := videoHeight > videoWidth;
    var isPhysicalLandscape := Abs(physicalRotation) == 90;
    var finalWidth := videoWidth;
    var finalHeight := videoHeight;
    var needsRotation := false;
    if isStreamPortrait && isPhysicalLandscape {
      needsRotation := true;
      finalWidth := videoHeight;
      finalHeight := videoWidth;
    }
    plan := Some(CanvasPlan(finalWidth, finalHeight, if needsRotation then physicalRotation else 0));
  }

  function Abs(x: int): (r: nat)
    ensures r == x || r == -x
  {
    if x < 0 then -x else x
  }
}
