/**
 * The dashboard's socket hook (src/hooks/useCamera.js): the live frame per camera, the
 * list of recent incidents and the connection flag, updated by the socket's events.
 * Incident payloads are passed through unread, so their type is a parameter.
 */
module CameraSocketHook {
  import opened Common

  /** The number of incidents the list keeps. */
  const IncidentCap := 10

  /** The `incident_alert` updater: the new alert first, then the earlier ones, cut to 10. */
  function PrependIncident<A>(prev: seq<A>, alert: A): (r: seq<A>)
    ensures |r| <= IncidentCap
    ensures |r| > 0 && r[0] == alert
    // the earlier alerts follow in their order; only the oldest falls off, and only at the cap
    ensures |prev| < IncidentCap ==> r == [alert] + prev
    ensures |prev| >= IncidentCap ==> r == [alert] + prev[..IncidentCap - 1]
  {
    var all := [alert] + prev;
    if |all| <= IncidentCap then all else all[..IncidentCap]
  }

  /** The `camera_frame` updater: the camera's entry becomes the frame, other entries stay. */
  function SetFrame(cameraData: map<int, string>, camId: int, frame: string): (r: map<int, string>)
    ensures r.Keys == cameraData.Keys + {camId}
    ensures r[camId] == frame
    ensures forall id :: id in cameraData && id != camId ==> r[id] == cameraData[id]
  {
    cameraData[camId := frame]
  }

  /** The list after a sequence of alerts, oldest first, starting from the empty list. */
  function IncidentsAfter<A>(alerts: seq<A>): seq<A>
    decreases |alerts|
  {
    if alerts == [] then []
    else PrependIncident(IncidentsAfter(alerts[..|alerts| - 1]), alerts[|alerts| - 1])
  }

  /** The sequence in reverse order. */
  function Reverse<A>(s: seq<A>): (r: seq<A>)
    ensures |r| == |s|
    ensures forall i :: 0 <= i < |s| ==> r[i] == s[|s| - 1 - i]
    decreases |s|
  {
    if s == [] then [] else [s[|s| - 1]] + Reverse(s[..|s| - 1])
  }

  function Min(a: int, b: int): int {
    if a < b then a else b
  }

  /** The incident list holds the latest (at most 10) alerts, newest first. */
  lemma {:induction false} IncidentsAreLatestNewestFirst<A>(alerts: seq<A>)
    ensures IncidentsAfter(alerts) == Reverse(alerts)[..Min(IncidentCap, |alerts|)]
    decreases |alerts|
  {
    if alerts != [] {
      var earlier := alerts[..|alerts| - 1];
      IncidentsAreLatestNewestFirst(earlier);
      assert Reverse(alerts) == [alerts[|alerts| - 1]] + Reverse(earlier);
    }
  }

  /** One `camera_frame` event. */
  datatype Frame = Frame(camId: int, frame: string)

  /** The frame map after a sequence of frame events, starting from the empty map. */
  function FramesAfter(frames: seq<Frame>): map<int, string>
    decreases |frames|
  {
    if frames == [] then map[]
    else
      var last := frames[|frames| - 1];
      SetFrame(FramesAfter(frames[..|frames| - 1]), last.camId, last.frame)
  }

  /** Event `i` is the last one for the camera. */
  predicate LatestAt(frames: seq<Frame>, camId: int, i: int) {
    && 0 <= i < |frames| && frames[i].camId == camId
    && forall j :: i < j < |frames| ==> frames[j].camId != camId
  }

  /** The latest frame sent for a camera, if any. */
  function LatestFrame(frames: seq<Frame>, camId: int): (r: Option<string>)
    ensures r.None? <==> forall i :: 0 <= i < |frames| ==> frames[i].camId != camId
    ensures r.Some? ==> exists i :: LatestAt(frames, camId, i) && frames[i].frame == r.value
    decreases |frames|
  {
    if frames == [] then None
    else if frames[|frames| - 1].camId == camId then
      assert LatestAt(frames, camId, |frames| - 1);
      Some(frames[|frames| - 1].frame)
    else
      var earlier := frames[..|frames| - 1];
      var r := LatestFrame(earlier, camId);
      if r.Some? then
        ghost var i :| LatestAt(earlier, camId, i) && earlier[i].frame == r.value;
        assert LatestAt(frames, camId, i);
        r
      else r
  }

  /** Each camera shows the latest frame sent for it, and only cameras that sent one appear. */
  lemma {:induction false} FramesAreLatestPerCamera(frames: seq<Frame>, camId: int)
    ensures camId in FramesAfter(frames) <==> LatestFrame(frames, camId).Some?
    ensures camId in FramesAfter(frames) ==> FramesAfter(frames)[camId] == LatestFrame(frames, camId).value
    decreases |frames|
  {
    if frames != [] {
      FramesAreLatestPerCamera(frames[..|frames| - 1], camId);
    }
  }

  /** The state the hook returns. */
  class CameraSocket<A> {
    var cameraData: map<int, string>
    var incidents: seq<A>
    var isConnected: bool

    /** The list never holds more than 10 incidents. */
    predicate Valid()
      reads this
    {
      |incidents| <= IncidentCap
    }

    constructor ()
      ensures Valid()
      ensures cameraData == map[] && incidents == [] && !isConnected
    {
      cameraData, incidents, isConnected := map[], [], false;
    }

    /** The `connect` handler. */
    method OnConnect()
      modifies this
      ensures isConnected
      ensures cameraData == old(cameraData) && incidents == old(incidents)
    {
      isConnected := true;
    }

    /** The `disconnect` handler. */
    method OnDisconnect()
      modifies this
      ensures !isConnected
      ensures cameraData == old(cameraData) && incidents == old(incidents)
    {
      isConnected := false;
    }

    /** The `camera_frame` handler. */
    method OnCameraFrame(camId: int, frame: string)
      modifies this
      ensures cameraData == SetFrame(old(cameraData), camId, frame)
      ensures incidents == old(incidents) && isConnected == old(isConnected)
    {
      cameraData := SetFrame(cameraData, camId, frame);
    }

    /** The `incident_alert` handler. */
    method OnIncidentAlert(alert: A)
      requires Valid()
      modifies this
      ensures Valid()
      ensures incidents == PrependIncident(old(incidents), alert)
      ensures cameraData == old(cameraData) && isConnected == old(isConnected)
    {
      incidents := PrependIncident(incidents, alert);
    }
  }

  /** Eleven alerts: the first one has dropped off and the newest leads. */
  lemma ElevenAlertsDropTheFirst()
    ensures IncidentsAfter(seq(11, i => i)) == seq(10, i => 10 - i)
  {
    IncidentsAreLatestNewestFirst(seq(11, i => i));
  }

  /**
   * A usage example, not part of the program: a hook that connects, receives a frame and
   * an alert, and disconnects.
   */
  method HookSession()
  {
    var hook := new CameraSocket<string>();
    hook.OnConnect();
    hook.OnCameraFrame(1, "frame-a");
    hook.OnIncidentAlert("fall");
    hook.OnDisconnect();
    assert hook.cameraData == map[1 := "frame-a"];
    assert hook.incidents == ["fall"] && !hook.isConnected;
  }
}
