/**
 * The edge camera's decision logic (edge_camera/picam.py): the cooldown gate in front of
 * the alert POST, and what one iteration of the tracking loop does with the detections.
 *
 * Time is an integer count of milliseconds. The vision model, the camera and the drawing
 * are outside the model: one loop iteration receives the detections the tracker would
 * return, the clock reading of the iteration, and the outcome of each POST.
 */
module EdgeCamera {
  import opened Common

  /** `ALERT_COOLDOWN = 5.0` seconds. */
  const AlertCooldownMs := 5000
  /** `SKIP_FRAMES = 3`: the tracker runs on every third frame. */
  const SkipFrames := 3
  /** The location every alert POST names. */
  const CameraLocation := "Camera 1 (Pi)"

  /** The JSON body of the alert POST. */
  datatype Payload = Payload(location: string, fallType: string, trackId: int)

  /** One tracked detection, its class index already resolved to the class name. */
  datatype Detection = Detection(trackId: int, className: string)

  /** The cooldown has run out: at least `ALERT_COOLDOWN` since the last recorded send. */
  predicate CooldownOver(lastSent: int, now: int) {
    now - lastSent >= AlertCooldownMs
  }

  /** A detection is a fall when its lower-cased class name contains "fall". */
  predicate IsFall(className: string) {
    Contains(ToLower(className), "fall")
  }

  /** A detection is a sitting one when its lower-cased class name is exactly "sitting". */
  predicate IsSitting(className: string) {
    ToLower(className) == "sitting"
  }

  /** A name that holds "fall", in lower case, at position `i` is a fall. */
  lemma FallAtIsFall(name: string, i: nat)
    requires i + 4 <= |name| && name[i..i + 4] == "fall"
    ensures IsFall(name)
  {
    var lower := ToLower(name);
    assert lower[i..i + 4] == "fall" by {
      forall k | 0 <= k < 4 ensures lower[i + k] == "fall"[k] {
        assert name[i + k] == "fall"[k];
      }
    }
    OccursContains(lower, "fall", i);
  }

  /** The trained model's three fall classes are falls. */
  lemma FallClassesAreFalls()
    ensures IsFall("forward fall") && IsFall("sideward fall") && IsFall("backward fall")
  {
    FallAtIsFall("forward fall", 8);
    FallAtIsFall("sideward fall", 9);
    FallAtIsFall("backward fall", 9);
  }

  /** A name without an 'f' or an 'F' is not a fall. */
  lemma NoEffIsNotFall(name: string)
    requires 'f' !in name && 'F' !in name
    ensures !IsFall(name)
  {
    forall k | 0 <= k < |ToLower(name)| ensures ToLower(name)[k] != 'f' {
      assert name[k] in name;
    }
    NoFirstCharNoContains(ToLower(name), "fall");
  }

  /** The trained model's other classes are not falls. */
  lemma OtherClassesAreNotFalls()
    ensures !IsFall("standing") && !IsFall("walking") && !IsFall("sitting") && !IsFall("eating")
  {
    NoEffIsNotFall("standing");
    NoEffIsNotFall("walking");
    NoEffIsNotFall("sitting");
    NoEffIsNotFall("eating");
  }

  /** The sitting check accepts "sitting" with each letter in either case, and no other name. */
  lemma SittingInAnyCase(name: string)
    ensures IsSitting(name) <==>
      && |name| == |"sitting"|
      && forall i :: 0 <= i < |name| ==> name[i] == "sitting"[i] || name[i] == "SITTING"[i]
  {
    if IsSitting(name) {
      forall i | 0 <= i < |name| ensures name[i] == "sitting"[i] || name[i] == "SITTING"[i] {
        assert LowerChar(name[i]) == ToLower(name)[i] == "sitting"[i];
      }
    }
    if |name| == |"sitting"| && forall i :: 0 <= i < |name| ==> name[i] == "sitting"[i] || name[i] == "SITTING"[i] {
      forall i | 0 <= i < |name| ensures ToLower(name)[i] == "sitting"[i] {
        assert LowerChar(name[i]) == ToLower(name)[i];
      }
    }
  }

  /** Of the trained model's classes, only "sitting" is a sitting one. */
  lemma OtherClassesAreNotSitting()
    ensures IsSitting("sitting")
    ensures !IsSitting("standing") && !IsSitting("walking") && !IsSitting("eating")
    ensures !IsSitting("forward fall") && !IsSitting("sideward fall") && !IsSitting("backward fall")
  {
    SittingInAnyCase("sitting");
    assert ToLower("walking")[0] == 'w';
  }

  /** The module-level gate state: `last_alert_sent_time` and the POSTs attempted so far. */
  datatype Gate = Gate(lastAlertSentTime: int, posts: seq<Payload>)

  /**
   * `send_alert_to_backend(fall_type, track_id)`: `now` is the clock reading of the cooldown
   * check, `sentAt` the reading after the POST returns, `postOk` whether it returned
   * without raising.
   */
  function SendAlert(g: Gate, fallType: string, trackId: int, now: int, sentAt: int, postOk: bool): (r: Gate)
    // inside the cooldown: no POST, and the last send time is kept
    ensures !CooldownOver(g.lastAlertSentTime, now) ==> r == g
    // otherwise exactly one POST with the fixed location, the class name and the track id
    ensures CooldownOver(g.lastAlertSentTime, now) ==>
      r.posts == g.posts + [Payload(CameraLocation, fallType, trackId)]
    // the send time moves only after a POST that did not raise
    ensures r.lastAlertSentTime ==
      if CooldownOver(g.lastAlertSentTime, now) && postOk then sentAt else g.lastAlertSentTime
  {
    if now - g.lastAlertSentTime < AlertCooldownMs then g
    else
      var attempted := g.(posts := g.posts + [Payload(CameraLocation, fallType, trackId)]);
      if postOk then attempted.(lastAlertSentTime := sentAt) else attempted
  }

  /** The number of fall detections in a frame. */
  function FallCount(dets: seq<Detection>): (n: nat)
    ensures n <= |dets|
    decreases |dets|
  {
    if dets == [] then 0
    else FallCount(dets[..|dets| - 1]) + (if IsFall(dets[|dets| - 1].className) then 1 else 0)
  }

  /**
   * The gate after the detections of one frame, each fall sending at clock reading `now`.
   * `postOk(i)` is whether the POST made for the detection at position `i` returns
   * without raising; it is not consulted for a detection that makes no POST.
   */
  function GateAfter(g: Gate, dets: seq<Detection>, now: int, postOk: nat -> bool): Gate
    decreases |dets|
  {
    if dets == [] then g
    else
      GateStep(GateAfter(g, dets[..|dets| - 1], now, postOk), dets[|dets| - 1], now, postOk(|dets| - 1))
  }

  /** One detection's effect on the gate: a fall sends, anything else does not. */
  function GateStep(g: Gate, d: Detection, now: int, postOk: bool): Gate {
    if IsFall(d.className) then SendAlert(g, d.className, d.trackId, now, now, postOk) else g
  }

  /**
   * When every POST of the frame raises, nothing moves the send time, so every fall in
   * the frame POSTs again once the cooldown is over, and none does while it is not.
   */
  lemma {:induction false} FailedPostsAreRetried(g: Gate, dets: seq<Detection>, now: int, postOk: nat -> bool)
    requires forall i :: 0 <= i < |dets| ==> !postOk(i)
    ensures GateAfter(g, dets, now, postOk).lastAlertSentTime == g.lastAlertSentTime
    ensures CooldownOver(g.lastAlertSentTime, now) ==>
      |GateAfter(g, dets, now, postOk).posts| == |g.posts| + FallCount(dets)
    ensures !CooldownOver(g.lastAlertSentTime, now) ==> GateAfter(g, dets, now, postOk) == g
    decreases |dets|
  {
    if dets != [] {
      FailedPostsAreRetried(g, dets[..|dets| - 1], now, postOk);
    }
  }

  /**
   * When every POST goes through, the first fall after the cooldown sends and restarts
   * it, so a frame sends at most one POST; it sends one exactly when the cooldown was
   * over and the frame holds a fall.
   */
  lemma {:induction false} OneSuccessfulPostPerFrame(g: Gate, dets: seq<Detection>, now: int, postOk: nat -> bool)
    requires forall i :: 0 <= i < |dets| ==> postOk(i)
    ensures var r := GateAfter(g, dets, now, postOk);
      if CooldownOver(g.lastAlertSentTime, now) && FallCount(dets) > 0
      then r.lastAlertSentTime == now && |r.posts| == |g.posts| + 1
      else r == g
    decreases |dets|
  {
    if dets != [] {
      OneSuccessfulPostPerFrame(g, dets[..|dets| - 1], now, postOk);
    }
  }

  /**
   * Mixed outcomes in one frame: the first two fall POSTs raise, the third goes through,
   * so three are attempted and the fourth fall is inside the restarted cooldown.
   */
  lemma RetriesUntilTheFirstSuccess(postOk: nat -> bool)
    requires !postOk(0) && !postOk(1) && postOk(2)
    ensures var dets := [Detection(1, "forward fall"), Detection(2, "sideward fall"),
                         Detection(3, "backward fall"), Detection(4, "forward fall")];
      var r := GateAfter(Gate(0, []), dets, AlertCooldownMs, postOk);
      && r.lastAlertSentTime == AlertCooldownMs
      && r.posts == [Payload(CameraLocation, "forward fall", 1), Payload(CameraLocation, "sideward fall", 2),
                     Payload(CameraLocation, "backward fall", 3)]
  {
    FallClassesAreFalls();
    var dets := [Detection(1, "forward fall"), Detection(2, "sideward fall"),
                 Detection(3, "backward fall"), Detection(4, "forward fall")];
    var g0 := Gate(0, []);
    assert dets[..1][..0] == [] && dets[..2][..1] == dets[..1];
    assert dets[..3][..2] == dets[..2] && dets[..4][..3] == dets[..3] && dets[..4] == dets;
    assert GateAfter(g0, dets[..1][..0], AlertCooldownMs, postOk) == g0;
    assert dets[..1][0] == dets[0] && dets[..2][1] == dets[1] && dets[..3][2] == dets[2] && dets[3].className == dets[0].className;
    var g1 := GateAfter(g0, dets[..1], AlertCooldownMs, postOk);
    assert g1 == GateStep(g0, dets[0], AlertCooldownMs, postOk(0));
    assert g1 == Gate(0, [Payload(CameraLocation, "forward fall", 1)]);
    var g2 := GateAfter(g0, dets[..2], AlertCooldownMs, postOk);
    assert g2 == Gate(0, g1.posts + [Payload(CameraLocation, "sideward fall", 2)]);
    var g3 := GateAfter(g0, dets[..3], AlertCooldownMs, postOk);
    assert g3 == Gate(AlertCooldownMs, g2.posts + [Payload(CameraLocation, "backward fall", 3)]);
    assert GateAfter(g0, dets, AlertCooldownMs, postOk) == g3;
  }

  /** One detection's effect on `sitting_start_times`. */
  function SittingStep(m: map<int, int>, d: Detection, now: int): (r: map<int, int>)
    // a sitting track keeps its start time, or starts now; any other track is dropped
    ensures IsSitting(d.className) ==>
      d.trackId in r && r[d.trackId] == (if d.trackId in m then m[d.trackId] else now)
    ensures !IsSitting(d.className) ==> d.trackId !in r
    // other tracks are untouched
    ensures forall id :: id != d.trackId ==> (id in r <==> id in m)
    ensures forall id :: id != d.trackId && id in m ==> r[id] == m[id]
  {
    if IsSitting(d.className) then
      if d.trackId in m then m else m[d.trackId := now]
    else m - {d.trackId}
  }

  /** `sitting_start_times` after the detections of one frame, in order. */
  function SittingAfter(m: map<int, int>, dets: seq<Detection>, now: int): map<int, int>
    decreases |dets|
  {
    if dets == [] then m
    else SittingStep(SittingAfter(m, dets[..|dets| - 1], now), dets[|dets| - 1], now)
  }

  /**
   * For a track seen only sitting in the frame: it is present afterwards exactly when it was
   * before or was seen; a start time already recorded is kept; a new one is the frame's
   * time. A track not seen at all keeps its entry, or its absence.
   */
  lemma {:induction false} SittingStartOfTrack(m: map<int, int>, dets: seq<Detection>, now: int, id: int)
    requires forall k :: 0 <= k < |dets| && dets[k].trackId == id ==> IsSitting(dets[k].className)
    ensures var r := SittingAfter(m, dets, now);
      && (id in r <==> id in m || exists k :: 0 <= k < |dets| && dets[k].trackId == id)
      && (id in m ==> r[id] == m[id])
      && (id !in m && id in r ==> r[id] == now)
    decreases |dets|
  {
    if dets != [] {
      var init := dets[..|dets| - 1];
      SittingStartOfTrack(m, init, now, id);
      var r := SittingAfter(m, dets, now);
      if id in m || exists k :: 0 <= k < |dets| && dets[k].trackId == id {
        if id !in m && dets[|dets| - 1].trackId != id {
          var k :| 0 <= k < |dets| && dets[k].trackId == id;
          assert init[k].trackId == id;
        }
      }
      if exists k :: 0 <= k < |init| && init[k].trackId == id {
        var k :| 0 <= k < |init| && init[k].trackId == id;
        assert dets[k].trackId == id;
      }
    }
  }

  /** A track whose last detection in the frame is not sitting has no entry afterwards. */
  lemma {:induction false} NotSittingRemovesTrack(m: map<int, int>, dets: seq<Detection>, now: int, k: int)
    requires 0 <= k < |dets| && !IsSitting(dets[k].className)
    requires forall j :: k < j < |dets| ==> dets[j].trackId != dets[k].trackId
    ensures dets[k].trackId !in SittingAfter(m, dets, now)
    decreases |dets|
  {
    if k < |dets| - 1 {
      NotSittingRemovesTrack(m, dets[..|dets| - 1], now, k);
    }
  }

  /** The class names of a frame's detections, in order. */
  function ClassNames(dets: seq<Detection>): (names: seq<string>)
    ensures |names| == |dets|
    ensures forall i :: 0 <= i < |dets| ==> names[i] == dets[i].className
  {
    seq(|dets|, i requires 0 <= i < |dets| => dets[i].className)
  }

  /** `current_class_counts` after the detections of one frame, in order. */
  function ClassCounts(dets: seq<Detection>): map<string, nat>
    decreases |dets|
  {
    if dets == [] then map[]
    else
      CountStep(ClassCounts(dets[..|dets| - 1]), dets[|dets| - 1].className)
  }

  /** `counts[name] = counts.get(name, 0) + 1`. */
  function CountStep(m: map<string, nat>, name: string): (r: map<string, nat>)
    // the class's count goes up by one, a class not yet seen starting from 0
    ensures name in r && r[name] == (if name in m then m[name] else 0) + 1
    // other classes are untouched
    ensures forall n :: n != name ==> (n in r <==> n in m)
    ensures forall n :: n != name && n in m ==> r[n] == m[n]
  {
    m[name := (if name in m then m[name] else 0) + 1]
  }

  /** Each class name maps to the number of the frame's detections of that class. */
  lemma {:induction false} ClassCountsAreMultiplicities(dets: seq<Detection>)
    ensures forall name ::
      multiset(ClassNames(dets))[name] == (if name in ClassCounts(dets) then ClassCounts(dets)[name] else 0)
    ensures forall name :: name in ClassCounts(dets) ==> ClassCounts(dets)[name] > 0
    decreases |dets|
  {
    if dets != [] {
      var init := dets[..|dets| - 1];
      ClassCountsAreMultiplicities(init);
      assert ClassNames(dets) == ClassNames(init) + [dets[|dets| - 1].className];
    }
  }

  /** Whether the iteration with this frame count runs the tracker. */
  predicate RunsTracker(frameCount: nat) {
    frameCount % SkipFrames == 0
  }

  /** How many of the first `n` iterations run the tracker. */
  function TrackerRuns(n: nat): nat
    decreases n
  {
    if n == 0 then 0 else TrackerRuns(n - 1) + (if RunsTracker(n - 1) then 1 else 0)
  }

  /** The tracker runs on one iteration in three, starting with the first. */
  lemma {:induction false} TrackerRunsEveryThirdFrame(n: nat)
    ensures TrackerRuns(n) == (n + SkipFrames - 1) / SkipFrames
    decreases n
  {
    if n > 0 {
      TrackerRunsEveryThirdFrame(n - 1);
    }
  }

  /** The camera process: the module global and the tracking loop's state. */
  class EdgeCamera {
    var lastAlertSentTime: int
    var posts: seq<Payload>
    var sittingStartTimes: map<int, int>
    var lastDetections: seq<Detection>
    var frameCount: nat
    var currentClassCounts: map<string, nat>

    /** The gate part of the state. */
    function GateState(): Gate
      reads this
    {
      Gate(lastAlertSentTime, posts)
    }

    constructor ()
      ensures lastAlertSentTime == 0 && posts == []
      ensures sittingStartTimes == map[] && lastDetections == [] && frameCount == 0
      ensures currentClassCounts == map[]
    {
      lastAlertSentTime := 0;
      posts := [];
      sittingStartTimes := map[];
      lastDetections := [];
      frameCount := 0;
      currentClassCounts := map[];
    }

    method SendAlertToBackend(fallType: string, trackId: int, now: int, sentAt: int, postOk: bool)
      modifies this`lastAlertSentTime, this`posts
      ensures GateState() == SendAlert(old(GateState()), fallType, trackId, now, sentAt, postOk)
    {
      if now - lastAlertSentTime < AlertCooldownMs {
        return;
      }
      posts := posts + [Payload(CameraLocation, fallType, trackId)];
      if postOk {
        lastAlertSentTime := sentAt;
      }
    }

    /** The body of the per-detection `for` loop: count the class, send a fall, time a sitting. */
    method ProcessDetection(d: Detection, now: int, postOk: bool)
      modifies this`currentClassCounts, this`sittingStartTimes, this`lastAlertSentTime, this`posts
      ensures currentClassCounts == CountStep(old(currentClassCounts), d.className)
      ensures sittingStartTimes == SittingStep(old(sittingStartTimes), d, now)
      ensures GateState() == GateStep(old(GateState()), d, now, postOk)
    {
      var className := d.className;
      currentClassCounts := currentClassCounts[className :=
        (if className in currentClassCounts then currentClassCounts[className] else 0) + 1];
      if IsFall(className) {
        SendAlertToBackend(className, d.trackId, now, now, postOk);
      }
      if IsSitting(className) {
        if d.trackId !in sittingStartTimes {
          sittingStartTimes := sittingStartTimes[d.trackId := now];
        }
      } else if d.trackId in sittingStartTimes {
        sittingStartTimes := sittingStartTimes - {d.trackId};
      }
    }

    /**
     * One pass of the `while True` loop of `run_tracking`: `tracked` is what the tracker
     * returns if it runs on this frame, `now` the clock reading of the iteration and
     * `postOk(i)` whether the POST for the detection at position `i` goes through.
     */
    method TrackingIteration(tracked: seq<Detection>, now: int, postOk: nat -> bool)
      modifies this
      ensures frameCount == old(frameCount) + 1
      ensures lastDetections == if RunsTracker(old(frameCount)) then tracked else old(lastDetections)
      ensures currentClassCounts == ClassCounts(lastDetections)
      ensures sittingStartTimes == SittingAfter(old(sittingStartTimes), lastDetections, now)
      ensures GateState() == GateAfter(old(GateState()), lastDetections, now, postOk)
    {
      if frameCount % SkipFrames == 0 {
        lastDetections := tracked;
      }
      frameCount := frameCount + 1;
      currentClassCounts := map[];
      var dets := lastDetections;
      var i := 0;
      while i < |dets|
        invariant 0 <= i <= |dets|
        invariant lastDetections == dets && frameCount == old(frameCount) + 1
        invariant currentClassCounts == ClassCounts(dets[..i])
        invariant sittingStartTimes == SittingAfter(old(sittingStartTimes), dets[..i], now)
        invariant GateState() == GateAfter(old(GateState()), dets[..i], now, postOk)
      {
        assert dets[..i + 1][..i] == dets[..i];
        ProcessDetection(dets[i], now, postOk(i));
        i := i + 1;
      }
      assert dets[..i] == dets;
    }
  }
}
