/**
 * The alarm controller that drives the strobe and siren relays and the dashboard
 * notifications (backend/hardware.py, class HardwareAlertSystem).
 *
 * The controller is two flags, `is_alarming` and `is_snoozed`, and two relay outputs.
 * Socket emits and the scheduling of the background snooze task are recorded in an
 * append-only event log. The snooze task is split into its two halves: it is scheduled
 * by the silence sequence, and later, when the task runs, it sets the snooze flag
 * (`SnoozeBegin`) and, after its sleep, clears it (`SnoozeEnd`).
 */
module Hardware {

  /** One notification or task scheduling, in the order the controller issued it. */
  datatype Event =
    | IncidentAlert(alertType: string, location: string, timestamp: int)
    | AlertAcknowledged(status: string)
    | SnoozeScheduled

  /** The `type` field of every `incident_alert` emit. */
  const FallDetected := "Fall Detected"
  /** The `status` field of every `alert_acknowledged` emit. */
  const Acknowledged := "acknowledged"
  /** The location `trigger_alert` uses when its caller gives none. */
  const DefaultLocation := "Unknown"
  /** Seconds the snooze task sleeps between setting and clearing the snooze flag. */
  const SnoozeDurationSeconds := 90

  /**
   * The whole observable state of the controller. `pendingSnoozeTasks` counts snooze tasks
   * that have been scheduled and not yet started; `runningSnoozeTasks` counts those that
   * have set the snooze flag and are sleeping.
   */
  datatype Controller = Controller(
    alarming: bool,
    snoozed: bool,
    strobeOn: bool,
    sirenOn: bool,
    pendingSnoozeTasks: nat,
    runningSnoozeTasks: nat,
    events: seq<Event>)

  /** The event expected at position `k` (taken modulo 3) of a well-formed log. */
  predicate Slot(e: Event, k: nat) {
    if k == 0 then e.IncidentAlert? && e.alertType == FallDetected
    else if k == 1 then e == AlertAcknowledged(Acknowledged)
    else e == SnoozeScheduled
  }

  /**
   * What every reachable controller state satisfies: the relays are energised exactly while
   * alarming, the snooze flag is only set by a running task, and the log is a run of
   * complete alarm sessions (alert, acknowledgement, snooze scheduled), followed by one
   * open session (a lone alert) exactly while alarming.
   */
  predicate Inv(c: Controller) {
    && c.strobeOn == c.alarming
    && c.sirenOn == c.alarming
    && (c.snoozed ==> c.runningSnoozeTasks > 0)
    && (forall i :: 0 <= i < |c.events| ==> Slot(c.events[i], i % 3))
    && (c.alarming <==> |c.events| % 3 == 1)
    && |c.events| % 3 != 2
    && c.pendingSnoozeTasks + c.runningSnoozeTasks <= |c.events| / 3
  }

  /** `__init__`: both flags false, both relays created with `initial_value=False`. */
  function Initial(): (c: Controller)
    ensures !c.alarming && !c.snoozed && !c.strobeOn && !c.sirenOn
    ensures c.events == [] && c.pendingSnoozeTasks == 0 && c.runningSnoozeTasks == 0
    ensures Inv(c)
  {
    Controller(false, false, false, false, 0, 0, [])
  }

  /** `trigger_alert(location)`, with `now` the value of `int(time.time())` it reads. */
  function Trigger(c: Controller, location: string, now: int): (r: Controller)
    // blocked while snoozed, and while already alarming: nothing changes, nothing is emitted
    ensures c.snoozed ==> r == c
    ensures c.alarming ==> r == c
    // otherwise: alarming, both relays on, exactly one incident_alert appended
    ensures !c.snoozed && !c.alarming ==>
      && r.alarming && r.strobeOn && r.sirenOn
      && r.events == c.events + [IncidentAlert(FallDetected, location, now)]
      && r.snoozed == c.snoozed
      && r.pendingSnoozeTasks == c.pendingSnoozeTasks
      && r.runningSnoozeTasks == c.runningSnoozeTasks
  {
    if c.snoozed then c
    else if c.alarming then c
    else c.(alarming := true, strobeOn := true, sirenOn := true,
            events := c.events + [IncidentAlert(FallDetected, location, now)])
  }

  /** `stop_alarm`: both relays off and the alarming flag cleared; nothing emitted. */
  function Stopped(c: Controller): (r: Controller)
    ensures !r.alarming && !r.strobeOn && !r.sirenOn
    ensures r.snoozed == c.snoozed && r.events == c.events
    ensures r.pendingSnoozeTasks == c.pendingSnoozeTasks
    ensures r.runningSnoozeTasks == c.runningSnoozeTasks
  {
    c.(alarming := false, strobeOn := false, sirenOn := false)
  }

  /**
   * `_execute_silence_sequence`: stop the alarm, then emit `alert_acknowledged`, then
   * schedule one snooze task. The snooze flag itself is not touched here.
   */
  function SilenceSequence(c: Controller): (r: Controller)
    ensures !r.alarming && !r.strobeOn && !r.sirenOn
    ensures r.events == c.events + [AlertAcknowledged(Acknowledged), SnoozeScheduled]
    ensures r.snoozed == c.snoozed
    ensures r.pendingSnoozeTasks == c.pendingSnoozeTasks + 1
    ensures r.runningSnoozeTasks == c.runningSnoozeTasks
  {
    var stopped := Stopped(c);
    var notified := stopped.(events := stopped.events + [AlertAcknowledged(Acknowledged)]);
    notified.(events := notified.events + [SnoozeScheduled],
              pendingSnoozeTasks := notified.pendingSnoozeTasks + 1)
  }

  /** `handle_button_press`: the silence sequence if alarming, otherwise nothing. */
  function ButtonPress(c: Controller): (r: Controller)
    ensures c.alarming ==> r == SilenceSequence(c)
    ensures !c.alarming ==> r == c
  {
    if c.alarming then SilenceSequence(c) else c
  }

  /**
   * `handle_remote_silence`: the same transition as the button, plus a result that is true
   * exactly when an alarm was active.
   */
  function RemoteSilence(c: Controller): (r: (Controller, bool))
    ensures r.1 == c.alarming
    ensures r.0 == ButtonPress(c)
    ensures !r.1 ==> r.0 == c
  {
    if c.alarming then (SilenceSequence(c), true) else (c, false)
  }

  /** The start of `start_snooze_timer`: a scheduled task begins and sets the snooze flag. */
  function SnoozeStarted(c: Controller): (r: Controller)
    requires c.pendingSnoozeTasks > 0
    ensures r.snoozed
    ensures r.pendingSnoozeTasks == c.pendingSnoozeTasks - 1
    ensures r.runningSnoozeTasks == c.runningSnoozeTasks + 1
    ensures r.alarming == c.alarming && r.strobeOn == c.strobeOn && r.sirenOn == c.sirenOn
    ensures r.events == c.events
  {
    c.(snoozed := true, pendingSnoozeTasks := c.pendingSnoozeTasks - 1,
       runningSnoozeTasks := c.runningSnoozeTasks + 1)
  }

  /** The end of `start_snooze_timer`: after its sleep a task clears the flag, unconditionally. */
  function SnoozeFinished(c: Controller): (r: Controller)
    requires c.runningSnoozeTasks > 0
    ensures !r.snoozed
    ensures r.runningSnoozeTasks == c.runningSnoozeTasks - 1
    ensures r.pendingSnoozeTasks == c.pendingSnoozeTasks
    ensures r.alarming == c.alarming && r.strobeOn == c.strobeOn && r.sirenOn == c.sirenOn
    ensures r.events == c.events
  {
    c.(snoozed := false, runningSnoozeTasks := c.runningSnoozeTasks - 1)
  }

  /** One stimulus from the controller's environment. */
  datatype Stimulus =
    | FallReported(location: string, now: int)
    | ButtonPressed
    | RemoteSilenceRequested
    | SnoozeTaskStarts
    | SnoozeTaskWakes

  /** The effect of one stimulus; a task step with no task to run is ignored. */
  function Apply(c: Controller, s: Stimulus): Controller {
    match s
    case FallReported(location, now) => Trigger(c, location, now)
    case ButtonPressed => ButtonPress(c)
    case RemoteSilenceRequested => RemoteSilence(c).0
    case SnoozeTaskStarts => if c.pendingSnoozeTasks > 0 then SnoozeStarted(c) else c
    case SnoozeTaskWakes => if c.runningSnoozeTasks > 0 then SnoozeFinished(c) else c
  }

  /** The state after a sequence of stimuli, applied one at a time in order. */
  function Run(c: Controller, steps: seq<Stimulus>): Controller
    decreases |steps|
  {
    if steps == [] then c else Run(Apply(c, steps[0]), steps[1..])
  }

  /** Every operation keeps the invariant. */
  lemma ApplyKeepsInv(c: Controller, s: Stimulus)
    requires Inv(c)
    ensures Inv(Apply(c, s))
  {
    var r := Apply(c, s);
    var n := |c.events|;
    if |r.events| == n + 1 {
      assert r.events[n] == IncidentAlert(FallDetected, s.location, s.now);
      assert n % 3 == 0;
      assert (n + 1) % 3 == 1;
      assert (n + 1) / 3 == n / 3;
    } else if |r.events| == n + 2 {
      assert n % 3 == 1;
      assert (n + 1) % 3 == 2 && (n + 2) % 3 == 0;
      assert (n + 2) / 3 == n / 3 + 1;
    }
  }

  /** The invariant holds after any sequence of stimuli. */
  lemma {:induction false} RunKeepsInv(c: Controller, steps: seq<Stimulus>)
    requires Inv(c)
    ensures Inv(Run(c, steps))
    decreases |steps|
  {
    if steps != [] {
      ApplyKeepsInv(c, steps[0]);
      RunKeepsInv(Apply(c, steps[0]), steps[1..]);
    }
  }

  /** Every state reachable from a new controller satisfies the invariant. */
  lemma ReachableStatesKeepInv(steps: seq<Stimulus>)
    ensures Inv(Run(Initial(), steps))
  {
    RunKeepsInv(Initial(), steps);
  }

  /**
   * A second alarm is never raised on top of the first: between any two `incident_alert`
   * emits there is an `alert_acknowledged` one, immediately after the first.
   */
  lemma AlertsAreSeparatedByAcknowledgement(c: Controller, i: int, j: int)
    requires Inv(c)
    requires 0 <= i < j < |c.events|
    requires c.events[i].IncidentAlert? && c.events[j].IncidentAlert?
    ensures i + 1 < j && c.events[i + 1] == AlertAcknowledged(Acknowledged)
  {
    assert Slot(c.events[i], i % 3) && Slot(c.events[j], j % 3);
    assert i % 3 == 0 && j % 3 == 0;
    assert (i + 1) % 3 == 1;
    assert i + 1 < |c.events|;
    assert Slot(c.events[i + 1], (i + 1) % 3);
  }

  /**
   * After one silence, a second one from either entry point changes nothing, and the web
   * entry point reports that no alarm was active.
   */
  lemma SecondSilenceDoesNothing(c: Controller)
    ensures var once := ButtonPress(c);
      ButtonPress(once) == once && RemoteSilence(once) == (once, false)
    ensures var once := RemoteSilence(c).0;
      ButtonPress(once) == once && RemoteSilence(once) == (once, false)
  {
  }

  /**
   * A fall reported after the silence but before the scheduled snooze task has started is
   * not suppressed: the snooze flag is only set when the task runs. Once the task has
   * started, the controller is alarming and snoozed at the same time.
   */
  lemma TriggerBeforeSnoozeTaskStartsRearms()
    ensures var c := Run(Initial(), [FallReported("Living Room", 0), ButtonPressed,
                                      FallReported("Living Room", 1)]);
      c.alarming && !c.snoozed && c.pendingSnoozeTasks == 1
      && |c.events| == 4 && c.events[3] == IncidentAlert(FallDetected, "Living Room", 1)
    ensures var c := Run(Initial(), [FallReported("Living Room", 0), ButtonPressed,
                                      FallReported("Living Room", 1), SnoozeTaskStarts]);
      c.alarming && c.snoozed
  {
  }

  /**
   * Two silences whose tasks overlap: the first task to wake clears the snooze flag while
   * the second is still sleeping, so a new fall alarms again inside the second window.
   */
  lemma OverlappingSnoozeTasksEndEarly()
    ensures var c := Run(Initial(), [FallReported("Hall", 0), ButtonPressed,
                                      FallReported("Hall", 1), ButtonPressed,
                                      SnoozeTaskStarts, SnoozeTaskStarts, SnoozeTaskWakes]);
      !c.snoozed && c.runningSnoozeTasks == 1
      && Trigger(c, "Hall", 2).alarming
  {
  }

  /**
   * The nominal session: a fall alarms, a repeated report changes nothing, the button
   * silences, a fall during the snooze is dropped, and after the snooze a fall alarms again.
   */
  lemma NominalSession()
    ensures var a := Run(Initial(), [FallReported("Living Room", 0)]);
      a.alarming && a.events == [IncidentAlert(FallDetected, "Living Room", 0)]
    ensures var b := Run(Initial(), [FallReported("Living Room", 0), FallReported("Kitchen", 1)]);
      b == Run(Initial(), [FallReported("Living Room", 0)])
    ensures var s := Run(Initial(), [FallReported("Living Room", 0), ButtonPressed,
                                      SnoozeTaskStarts]);
      s.snoozed && !s.alarming && Trigger(s, "Living Room", 2) == s
    ensures var e := Run(Initial(), [FallReported("Living Room", 0), ButtonPressed,
                                      SnoozeTaskStarts, SnoozeTaskWakes]);
      !e.snoozed && Trigger(e, "Living Room", 3).alarming
  {
  }

  /** The controller object, with the relay outputs as booleans. */
  class HardwareAlertSystem {
    var alarming: bool
    var snoozed: bool
    var strobeOn: bool
    var sirenOn: bool
    var pendingSnoozeTasks: nat
    var runningSnoozeTasks: nat
    var events: seq<Event>
    const snoozeDuration: nat

    /** The object's fields as one controller value. */
    function Snapshot(): Controller
      reads this
    {
      Controller(alarming, snoozed, strobeOn, sirenOn, pendingSnoozeTasks, runningSnoozeTasks, events)
    }

    constructor ()
      ensures Snapshot() == Initial()
      ensures snoozeDuration == SnoozeDurationSeconds
    {
      strobeOn, sirenOn := false, false;
      alarming, snoozed := false, false;
      snoozeDuration := SnoozeDurationSeconds;
      pendingSnoozeTasks, runningSnoozeTasks := 0, 0;
      events := [];
    }

    /** `trigger_alert(location)`; a caller that names no location gets 'Unknown'. */
    method TriggerAlert(now: int, location: string := DefaultLocation)
      modifies this
      ensures Snapshot() == Trigger(old(Snapshot()), location, now)
    {
      if snoozed {
        return;
      }
      if alarming {
        return;
      }
      alarming := true;
      strobeOn := true;
      sirenOn := true;
      events := events + [IncidentAlert(FallDetected, location, now)];
    }

    method HandleButtonPress()
      modifies this
      ensures Snapshot() == ButtonPress(old(Snapshot()))
    {
      if alarming {
        ExecuteSilenceSequence();
      }
    }

    method HandleRemoteSilence() returns (silenced: bool)
      modifies this
      ensures (Snapshot(), silenced) == RemoteSilence(old(Snapshot()))
    {
      if alarming {
        ExecuteSilenceSequence();
        silenced := true;
      } else {
        silenced := false;
      }
    }

    method ExecuteSilenceSequence()
      modifies this
      ensures Snapshot() == SilenceSequence(old(Snapshot()))
    {
      StopAlarm();
      events := events + [AlertAcknowledged(Acknowledged)];
      events := events + [SnoozeScheduled];
      pendingSnoozeTasks := pendingSnoozeTasks + 1;
    }

    method StopAlarm()
      modifies this
      ensures Snapshot() == Stopped(old(Snapshot()))
    {
      strobeOn := false;
      sirenOn := false;
      alarming := false;
    }

    method SnoozeBegin()
      requires pendingSnoozeTasks > 0
      modifies this
      ensures Snapshot() == SnoozeStarted(old(Snapshot()))
    {
      pendingSnoozeTasks := pendingSnoozeTasks - 1;
      runningSnoozeTasks := runningSnoozeTasks + 1;
      snoozed := true;
    }

    method SnoozeEnd()
      requires runningSnoozeTasks > 0
      modifies this
      ensures Snapshot() == SnoozeFinished(old(Snapshot()))
    {
      snoozed := false;
      runningSnoozeTasks := runningSnoozeTasks - 1;
    }
  }

  /**
   * A usage example, not part of the program: a caller of the object sees the nominal
   * alarm, silence and snooze cycle.
   */
  method AlarmCycle()
  {
    var hw := new HardwareAlertSystem();
    hw.TriggerAlert(100, "Living Room");
    assert hw.alarming && hw.strobeOn && hw.sirenOn;
    hw.TriggerAlert(101, "Living Room");
    assert |hw.events| == 1;
    var silenced := hw.HandleRemoteSilence();
    assert silenced && !hw.alarming && !hw.snoozed && hw.pendingSnoozeTasks == 1;
    hw.HandleButtonPress();
    assert hw.pendingSnoozeTasks == 1;
    hw.SnoozeBegin();
    hw.TriggerAlert(102, "Living Room");
    assert !hw.alarming && |hw.events| == 3;
    hw.SnoozeEnd();
    hw.TriggerAlert(190);
    assert hw.alarming && hw.events[3] == IncidentAlert(FallDetected, DefaultLocation, 190);
  }
}
