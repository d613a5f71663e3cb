/**
 * The camera modal of the web app: the constraints `startCamera` asks the
 * browser for, and the canvas geometry of a capture, which turns a
 * portrait stream into a landscape picture when the window is landscape.
 * The stream bookkeeping is the shared `StreamSession`.
 */
module WebCamera {
  import opened Wrappers
  import opened CameraStreams

  /** The constraints of `startCamera(deviceId)`: the exact device when one
      is given, otherwise the rear camera at 1920x1080 in a landscape window
      and 1080x1920 in a portrait one. */
  function StartConstraints(deviceId: string, innerWidth: int, innerHeight: int): (c: VideoConstraints)
    ensures deviceId != "" <==> c == ExactDevice(deviceId)
    ensures c.FacingEnvironment? ==>
              && c.idealWidth.Some? && c.idealHeight.Some?
              && {c.idealWidth.value, c.idealHeight.value} == {1080, 1920}
              && (c.idealWidth.value > c.idealHeight.value <==> innerWidth > innerHeight)
  {
    if deviceId != "" then ExactDevice(deviceId)
    else
      var isLandscape := innerWidth > innerHeight;
      FacingEnvironment(Some(if isLandscape then 1920 else 1080), Some(if isLandscape then 1080 else 1920))
  }

  /** `startCamera`: the session takes a new request and the constraints
      for it are built from the window's current shape. */
  method StartCamera(session: StreamSession, deviceId: string, innerWidth: int, innerHeight: int)
    returns (request: Option<nat>, constraints: VideoConstraints)
    requires session.Valid() && !session.native
    modifies session`requestId, session`stored, session`live, session`pending
    ensures session.Valid()
    ensures request == Some(old(session.requestId) + 1) && session.live == {}
    ensures constraints == StartConstraints(deviceId, innerWidth, innerHeight)
  {
    request := session.BeginStart();
    constraints := StartConstraints(deviceId, innerWidth, innerHeight);
  }

  /** `handleCapture`'s geometry (`None` when the video, the canvas or its
      context is missing). When the window is landscape and the stream
      portrait, the canvas takes the swapped size and the frame is turned a
      quarter: clockwise (90) only for a device held the other way round
      (`window.orientation` -90 or a "landscape-secondary" screen, unless it
      also reports 90 or "landscape-primary"), otherwise counter-clockwise
      (-90). Otherwise the canvas has the stream's size and no rotation. In a
      landscape window the picture is never taller than wide. */
  method PlanCapture(ready: bool, innerWidth: int, innerHeight: int, videoWidth: int, videoHeight: int,
                     orientation: Option<int>, screenType: string)
    returns (plan: Option<CanvasPlan>)
    ensures plan.Some? <==> ready
    ensures plan.Some? ==>
              var p := plan.value;
              var turned := innerWidth > innerHeight && videoWidth < videoHeight;
              && multiset{p.width, p.height} == multiset{videoWidth, videoHeight}
              && (p.rotation != 0 <==> turned)
              && (turned ==> p.width == videoHeight && p.height == videoWidth)
              && (!turned ==> p.width == videoWidth && p.height == videoHeight)
              && (innerWidth > innerHeight ==> p.width >= p.height)
              && (p.rotation == 90 <==>
                    turned && !(orientation == Some(90) || screenType == "landscape-primary")
                    && (orientation == Some(-90) || screenType == "landscape-secondary"))
              && (p.rotation == -90 <==>
                    turned && ((orientation == Some(90) || screenType == "landscape-primary")
                               || !(orientation == Some(-90) || screenType == "landscape-secondary")))
  {
    if !ready {
      return None;
    }
    var isLandscape := innerWidth > innerHeight;
    var isStreamPortrait := videoWidth < videoHeight;
    var width := videoWidth;
    var height := videoHeight;
    var rotation := 0;
    if isLandscape && isStreamPortrait {
      width := videoHeight;
      height := videoWidth;
      rotation := -90;
      if orientation == Some(90) || screenType == "landscape-primary" {
        rotation := -90;
      } else if orientation == Some(-90) || screenType == "landscape-secondary" {
        rotation := 90;
      }
    }
    plan := Some(CanvasPlan(width, height, rotation));
  }
}
