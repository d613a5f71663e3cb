/**
 * The camera-stream bookkeeping both camera modals share: every call of
 * `startCamera` takes a new request id and stops the stream held so far; a
 * stream that arrives for a request that is no longer the latest one, or
 * after the modal was closed, is stopped at once instead of being kept; an
 * error is shown only for the latest request while mounted; the modal's
 * cleanup stops the held stream. The device switch cycles through the
 * video inputs.
 *
 * Streams are named by integers. `getUserMedia` is split into the request
 * (`BeginStart`) and its settling (`ResolveStream` or `ResolveError`),
 * which the environment may deliver in any order.
 */
module CameraStreams {
  import opened Wrappers
  import opened Strings
  import opened Arithmetic

  /** `devices.findIndex(d => d.deviceId === id)`: the first position of
      `id`, or -1 when it is absent. */
  function FindIndex(ids: seq<string>, id: string): (i: int)
    ensures -1 <= i < |ids|
    ensures i == -1 <==> id !in ids
    ensures i >= 0 ==> ids[i] == id && id !in ids[..i]
    decreases |ids|
  {
    if ids == [] then -1
    else if ids[0] == id then 0
    else
      var j := FindIndex(ids[1..], id);
      assert ids == [ids[0]] + ids[1..];
      if j == -1 then -1
      else
        assert ids[..j + 1] == [ids[0]] + ids[1..][..j];
        j + 1
  }

  /** `handleSwitchCamera`'s choice: nothing with fewer than two devices;
      otherwise the device after the active one, wrapping around, and the
      first device when the active id is not in the list (it is "" until the
      user has switched once). */
  function NextDeviceIndex(ids: seq<string>, active: string): (k: Option<nat>)
    ensures k.None? <==> |ids| < 2
    ensures k.Some? ==> k.value < |ids|
    ensures k.Some? && active !in ids ==> k.value == 0
    ensures k.Some? && active in ids ==>
              var j := FindIndex(ids, active);
              k.value == if j + 1 < |ids| then j + 1 else 0
  {
    if |ids| < 2 then None
    else
      var j := FindIndex(ids, active);
      ModUnique(j + 1, |ids|, if j + 1 < |ids| then 0 else 1, if j + 1 < |ids| then j + 1 else 0);
      Some((j + 1) % |ids|)
  }

  /** The device selected after `n` presses of the switch button. */
  function SwitchRun(ids: seq<string>, active: string, n: nat): string
    decreases n
  {
    if n == 0 then active
    else match NextDeviceIndex(ids, active)
      case None => active
      case Some(k) => SwitchRun(ids, ids[k], n - 1)
  }

  /** The position reached from `j` after `n` moves forward on a ring of
      `len` places. */
  function Advance(j: nat, n: nat, len: nat): (r: nat)
    ensures j < len ==> r < len
    decreases n
  {
    if n == 0 then j else Advance(if j + 1 < len then j + 1 else 0, n - 1, len)
  }

  /** Moving `n` places forward on the ring is adding `n` modulo its size. */
  lemma {:induction false} AdvanceIsMod(j: nat, n: nat, len: nat)
    requires j < len
    ensures Advance(j, n, len) == (j + n) % len
    decreases n
  {
    if n == 0 {
      ModUnique(j, len, 0, j);
    } else if j + 1 < len {
      AdvanceIsMod(j + 1, n - 1, len);
      assert j + 1 + (n - 1) == j + n;
    } else {
      AdvanceIsMod(0, n - 1, len);
      ModShift(n - 1, len);
      assert n - 1 + len == j + n;
    }
  }

  /** With distinct ids, each press moves one place forward on the ring of
      devices. */
  lemma {:induction false} SwitchWalk(ids: seq<string>, j: nat, n: nat)
    requires NoDups(ids) && |ids| >= 2 && j < |ids|
    ensures SwitchRun(ids, ids[j], n) == ids[Advance(j, n, |ids|)]
    decreases n
  {
    if n > 0 {
      FindIndexOfDistinct(ids, j);
      SwitchWalk(ids, if j + 1 < |ids| then j + 1 else 0, n - 1);
    }
  }

  /** With distinct device ids and at least two devices, `n` presses
      starting from the device at `j` select the device `n` places further
      on, so every device is reached and `|ids|` presses return to the start. */
  lemma SwitchCycles(ids: seq<string>, j: nat, n: nat)
    requires NoDups(ids) && |ids| >= 2 && j < |ids|
    ensures SwitchRun(ids, ids[j], n) == ids[(j + n) % |ids|]
  {
    SwitchWalk(ids, j, n);
    AdvanceIsMod(j, n, |ids|);
  }

  /** In a list without duplicates, an id is found at its own position. */
  lemma FindIndexOfDistinct(ids: seq<string>, j: nat)
    requires NoDups(ids) && j < |ids|
    ensures FindIndex(ids, ids[j]) == j
  {
    var i := FindIndex(ids, ids[j]);
    assert ids[j] in ids;
    assert ids[i] == ids[j];
  }

  /** The `video` constraints passed to `getUserMedia`: an exact device when
      one was chosen through the switch, otherwise the rear camera, with the
      preferred frame size where the app asks for one. */
  datatype VideoConstraints =
    | ExactDevice(deviceId: string)
    | FacingEnvironment(idealWidth: Option<nat>, idealHeight: Option<nat>)

  /** The canvas a capture is drawn on: its size and the rotation, in
      degrees, applied to the video frame. */
  datatype CanvasPlan = CanvasPlan(width: int, height: int, rotation: int)

  const CameraErrorMessage: string := "Could not access camera. Please check permissions."

  class StreamSession {
    /** Whether the app runs natively (the mobile app's native platform),
        where the browser stream code does nothing. */
    const native: bool
    /** `initRequestId.current`: the id of the latest start request. */
    var requestId: nat
    /** `isMounted.current`. */
    var mounted: bool
    /** `streamRef.current`: the stream kept for the preview. */
    var stored: Option<int>
    /** The streams obtained and not yet stopped. */
    var live: set<int>
    /** The start requests that have not settled yet. */
    var pending: set<nat>
    var error: string
    /** The video inputs found, and the one chosen through the switch. */
    var devices: seq<string>
    var activeDeviceId: string

    /** No stream runs except the one held for the preview, and that one
        belongs to the latest request while the modal is open. */
    ghost predicate Valid()
      reads this
    {
      && live == (if stored.Some? then {stored.value} else {})
      && (stored.Some? ==> mounted && requestId !in pending)
      && (forall p :: p in pending ==> p <= requestId)
      && (native ==> pending == {} && live == {})
    }

    constructor (isNative: bool)
      ensures Valid() && native == isNative
      ensures requestId == 0 && mounted && stored.None? && live == {} && pending == {}
      ensures error == "" && devices == [] && activeDeviceId == ""
    {
      native := isNative;
      requestId := 0;
      mounted := true;
      stored := None;
      live := {};
      pending := {};
      error := "";
      devices := [];
      activeDeviceId := "";
    }

    /** `stopMediaStream`. */
    method StopStored()
      requires Valid()
      modifies this`stored, this`live
      ensures Valid() && stored.None? && live == {}
    {
      stored := None;
      live := {};
    }

    /** The synchronous part of `startCamera`: a new request id, the held
        stream stopped, the request left pending. The device id ("" for the
        default camera) only shapes the constraints the caller builds. */
    method BeginStart() returns (request: Option<nat>)
      requires Valid()
      modifies this`requestId, this`stored, this`live, this`pending
      ensures Valid()
      ensures native ==> request.None? && requestId == old(requestId) && stored == old(stored)
                         && live == old(live) && pending == old(pending)
      ensures !native ==> request == Some(old(requestId) + 1) && requestId == old(requestId) + 1
                          && stored.None? && live == {} && pending == old(pending) + {requestId}
    {
      if native {
        return None;
      }
      requestId := requestId + 1;
      StopStored();
      pending := pending + {requestId};
      request := Some(requestId);
    }

    /** `getUserMedia` delivered the fresh stream `s` for request `id`. The
        stream is kept only when the modal is still open and `id` is the
        latest request; otherwise it is stopped at once. */
    method ResolveStream(id: nat, s: int) returns (kept: bool)
      requires Valid() && id in pending && s !in live
      modifies this`stored, this`live, this`pending
      ensures Valid() && pending == old(pending) - {id}
      ensures kept <==> old(mounted) && id == requestId
      ensures kept ==> stored == Some(s) && live == {s}
      ensures !kept ==> stored == old(stored) && live == old(live)
    {
      pending := pending - {id};
      if !mounted || id != requestId {
        return false;
      }
      stored := Some(s);
      live := {s};
      kept := true;
    }

    /** `getUserMedia` failed for request `id`: the error is shown only for
        the latest request while the modal is open. */
    method ResolveError(id: nat)
      requires Valid() && id in pending
      modifies this`pending, this`error
      ensures Valid() && pending == old(pending) - {id}
      ensures mounted && id == requestId ==> error == CameraErrorMessage
      ensures !(mounted && id == requestId) ==> error == old(error)
    {
      pending := pending - {id};
      if mounted && id == requestId {
        error := CameraErrorMessage;
      }
    }

    /** Closing the modal: the mounted flag drops and (outside the native
        platform) the held stream is stopped. From then on no stream runs:
        every later `ResolveStream` stops what it receives. */
    method Unmount()
      requires Valid()
      modifies this`mounted, this`stored, this`live
      ensures Valid() && !mounted && stored.None? && live == {}
    {
      if !native {
        StopStored();
      }
      mounted := false;
    }

    /** The device list arrived (`None` when enumeration failed). The
        default camera is started when inputs were found, and also when
        enumeration failed; never on the native platform. */
    method DevicesLoaded(found: Option<seq<string>>) returns (request: Option<nat>)
      requires Valid()
      modifies this`devices, this`requestId, this`stored, this`live, this`pending
      ensures Valid()
      ensures native ==> request.None? && devices == old(devices) && live == old(live)
      ensures !native && found.Some? ==> devices == found.value
      ensures !native && found.None? ==> devices == old(devices)
      ensures !native ==> (request.Some? <==> found.None? || |found.value| > 0)
      ensures request.Some? ==> request == Some(old(requestId) + 1) && live == {}
      ensures request.None? ==> requestId == old(requestId) && live == old(live)
    {
      if native {
        return None;
      }
      match found {
        case Some(videoDevices) =>
          devices := videoDevices;
          if |videoDevices| > 0 {
            request := BeginStart();
          } else {
            request := None;
          }
        case None =>
          request := BeginStart();
      }
    }

    /** The `orientationchange` listener restarts the camera with the chosen
        device (or the default one). */
    method OrientationChanged() returns (request: Option<nat>, deviceId: string)
      requires Valid()
      modifies this`requestId, this`stored, this`live, this`pending
      ensures Valid() && deviceId == activeDeviceId
      ensures native ==> request.None? && live == old(live)
      ensures !native ==> request == Some(old(requestId) + 1) && live == {}
    {
      request := BeginStart();
      deviceId := activeDeviceId;
    }

    /** `handleSwitchCamera`: with two or more inputs the next device
        becomes active and the camera restarts on it. */
    method Switch() returns (request: Option<nat>)
      requires Valid()
      modifies this`activeDeviceId, this`requestId, this`stored, this`live, this`pending
      ensures Valid()
      ensures |devices| < 2 ==> request.None? && activeDeviceId == old(activeDeviceId)
                                && requestId == old(requestId) && live == old(live)
      ensures |devices| >= 2 ==>
                activeDeviceId == devices[NextDeviceIndex(devices, old(activeDeviceId)).value]
      ensures |devices| >= 2 && !native ==> request == Some(old(requestId) + 1) && live == {}
    {
      var next := NextDeviceIndex(devices, activeDeviceId);
      if next.None? {
        return None;
      }
      activeDeviceId := devices[next.value];
      request := BeginStart();
    }
  }

  /** Whatever the order in which requests settle, at most one stream runs. */
  lemma AtMostOneLive(session: StreamSession)
    requires session.Valid()
    ensures |session.live| <= 1
    ensures !session.mounted ==> session.live == {}
  {
  }
}
