/** What the ARC machine achieves: notifications, routing in bounded time, detection. */
module ArcTheorems {
  import opened PowerTypes
  import opened Arc
  import opened ArcFrames
  import opened ArcInvariants

  // ---------------------------------------------------------------- notifications

  /** Of all entry points only the port's own hot-plug event can break this, and always does. */
  lemma NextTellsOnce(s: State, e: Event)
    requires Inv(s) && ToldOnce(s)
    ensures ToldOnce(Next(s, e)) <==> !(e.AudioOutHotPlug? && e.arcPort)
  {
    EveryEventHasItsKind(e);
    if e.AudioOutHotPlug? {
      HotPlugDisturbs(s, e.arcPort, e.plugged);
    } else if Looks(e) {
      LooksOnlyLook(s, e);
    } else if Connects(e) {
      ConnectsConnect(s, e);
    } else if Drops(e) {
      DropsDrop(s, e);
    } else {
      ServesLeaveLink(s, e);
    }
  }

  lemma HotPlugDisturbs(s: State, arcPort: bool, plugged: bool)
    requires ToldOnce(s)
    ensures ToldOnce(OnAudioOutHotPlug(s, arcPort, plugged)) <==> !arcPort
  {
    var notes := s.world.notifications;
    assert (notes + [plugged])[|notes|] == plugged;
  }

  predicate NoPortHotPlug(events: seq<Event>) {
    forall e :: e in events ==> !(e.AudioOutHotPlug? && e.arcPort)
  }

  lemma {:induction false} RunTellsOnce(s: State, events: seq<Event>)
    requires Inv(s) && ToldOnce(s) && NoPortHotPlug(events)
    ensures ToldOnce(After(s, events))
    decreases |events|
  {
    if events != [] {
      NextTellsOnce(s, events[0]);
      NextKeepsInv(s, events[0]);
      RunTellsOnce(Next(s, events[0]), events[1..]);
    }
  }

  /** Without hot-plug events of the port itself, the observers hear of every connection change
      exactly once: connected, disconnected, connected, and so on. */
  lemma ConnectionIsToldOnce(events: seq<Event>)
    requires NoPortHotPlug(events)
    ensures var s := After(INIT, events);
            s.connected == s.notified && Alternates(s.world.notifications)
  {
    RunTellsOnce(INIT, events);
  }

  // ---------------------------------------------------------------- routing in bounded time

  /** Audio is awaited: a device is there, and the descriptor timer runs. */
  predicate Pending(s: State) {
    s.connected && !s.audioEnabled && s.sadTimer
  }

  /** Events that drop the device or its descriptors. A port-disable request is none: it does
      nothing while audio is not routed. */
  predicate Interrupts(e: Event) {
    Drops(e) || (e.SetSoundMode? && !e.auto && e.stereo == Stereo)
  }

  /** An upper bound on the timer expiries that routing still needs. */
  function ExpiriesNeeded(s: State): nat {
    if s.audioEnabled then 0 else if s.sad == SadReceived || s.retrigger then 1 else 2
  }

  lemma TimerAdvances(s: State)
    requires Inv(s) && Pending(s)
    ensures var t := OnSadTimer(s);
            && t.audioEnabled == (ExpiriesNeeded(s) == 1)
            && (t.audioEnabled || (Pending(t) && ExpiriesNeeded(t) == 1))
  {
  }

  lemma ReportHelps(s: State, report: Option<seq<int>>)
    requires Inv(s) && Pending(s)
    ensures var t := OnDescriptorReport(s, report);
            t.audioEnabled || (Pending(t) && ExpiriesNeeded(t) <= ExpiriesNeeded(s))
  {
  }

  lemma EnableHelps(s: State, enable: bool, system: PowerState, bitstream: bool)
    requires Inv(s) && Pending(s)
    ensures var t := OnEnablePort(s, enable, system, bitstream);
            t.audioEnabled || (Pending(t) && ExpiriesNeeded(t) <= ExpiriesNeeded(s))
  {
  }

  lemma ConnectsKeepPending(s: State, e: Event)
    requires Inv(s) && Pending(s) && Connects(e)
    ensures Pending(Next(s, e)) && ExpiriesNeeded(Next(s, e)) == ExpiriesNeeded(s)
  {
    ConnectsConnect(s, e);
  }

  lemma LooksKeepPending(s: State, e: Event)
    requires Pending(s) && Looks(e)
    ensures Pending(Next(s, e)) && ExpiriesNeeded(Next(s, e)) == ExpiriesNeeded(s)
  {
    LooksOnlyLook(s, e);
  }

  lemma SoundModeKeepsPending(s: State, e: Event)
    requires Inv(s) && Pending(s) && e.SetSoundMode? && !Interrupts(e)
    ensures Pending(Next(s, e)) && ExpiriesNeeded(Next(s, e)) == ExpiriesNeeded(s)
  {
    SetSoundModeServes(s, e.portConnected, e.auto, e.stereo);
  }

  lemma NextAdvances(s: State, e: Event)
    requires Inv(s) && Pending(s) && !Interrupts(e)
    ensures var t := Next(s, e);
            || t.audioEnabled
            || (Pending(t) && ExpiriesNeeded(t) <= ExpiriesNeeded(s) - if e.SadTimer? then 1 else 0)
  {
    EveryEventHasItsKind(e);
    match e
    case SadTimer => TimerAdvances(s);
    case DescriptorReport(report) => ReportHelps(s, report);
    case EnablePort(enable, system, bitstream) => EnableHelps(s, enable, system, bitstream);
    case SetSoundMode(_, _, _) => SoundModeKeepsPending(s, e);
    case AudioOutHotPlug(_, _) =>
    case _ => if Looks(e) { LooksKeepPending(s, e); } else { ConnectsKeepPending(s, e); }
  }

  function Expiries(events: seq<Event>): nat {
    if events == [] then 0 else (if events[0].SadTimer? then 1 else 0) + Expiries(events[1..])
  }

  predicate RoutedDuring(s: State, events: seq<Event>)
    decreases |events|
  {
    s.audioEnabled || (events != [] && RoutedDuring(Next(s, events[0]), events[1..]))
  }

  /** While a device is connected and the descriptor timer runs, audio is routed no later than
      the timer's second expiry, or its first if descriptors were received or already asked for
      again; until then the timer stays armed. */
  lemma {:induction false} RoutedWithinTwoExpiries(s: State, events: seq<Event>)
    requires Inv(s) && Pending(s)
    requires forall e :: e in events ==> !Interrupts(e)
    ensures Expiries(events) >= ExpiriesNeeded(s) ==> RoutedDuring(s, events)
    ensures RoutedDuring(s, events) || Pending(After(s, events))
    decreases |events|
  {
    if events != [] {
      var t := Next(s, events[0]);
      NextAdvances(s, events[0]);
      NextKeepsInv(s, events[0]);
      if t.audioEnabled {
        assert RoutedDuring(t, events[1..]);
      } else {
        RoutedWithinTwoExpiries(t, events[1..]);
      }
    }
  }

  /** So it is in every run: whatever happened before. */
  lemma AudioIsRoutedInTime(past: seq<Event>, events: seq<Event>)
    requires Pending(After(INIT, past)) && (forall e :: e in events ==> !Interrupts(e)) && Expiries(events) >= 2
    ensures RoutedDuring(After(INIT, past), events)
  {
    RunKeepsInv(INIT, past);
    RoutedWithinTwoExpiries(After(INIT, past), events);
  }

  /** In every run a granted request to enable the port leaves audio routed or the timer armed
      to route it, exactly unless neither was so before and the device is an ARC one in
      pass-through or auto mode whose descriptors were never asked for. That request reports
      success, and nothing then waits to route. */
  lemma EnableRoutesOrWaits(past: seq<Event>, system: PowerState, bitstream: bool)
    requires After(INIT, past).connected && system != Standby
    ensures var s := After(INIT, past);
            var t := OnEnablePort(s, true, system, bitstream);
            t.audioEnabled || Pending(t) <==>
            s.audioEnabled || s.sadTimer || !(s.devType == ArcDevice && bitstream && SadMissing(s))
  {
    RunKeepsInv(INIT, past);
  }

  /** Such a state is reached when a termination fails: the descriptors go, the device stays. */
  lemma EnableCanStall()
    ensures var s := After(INIT, [Initiation(Some(true), true), Termination(Some(false))]);
            && s.connected && s.devType == ArcDevice && SadMissing(s)
            && !OnEnablePort(s, true, On, true).audioEnabled && !OnEnablePort(s, true, On, true).sadTimer
  {
  }

  // ---------------------------------------------------------------- routed audio has a device

  /** Every step keeps it but one: descriptors that arrive while the timer still runs for a
      device that is gone route audio all the same. */
  lemma NextKeepsDevice(s: State, e: Event)
    requires Inv(s) && RoutedHasDevice(s)
    ensures RoutedHasDevice(Next(s, e)) <==>
            !(&& e.DescriptorReport? && e.report.Some? && e.report.value != []
              && s.sad == SadRequested && s.routing == Initiated && s.sadTimer && s.devType == NoDevice)
  {
    EveryEventHasItsKind(e);
    match e
    case DescriptorReport(report) => ReportKeepsDevice(s, report);
    case SadTimer => SadTimerServes(s);
    case EnablePort(enable, system, bitstream) => EnableKeepsDevice(s, enable, system, bitstream);
    case SetSoundMode(portConnected, auto, stereo) => SetSoundModeServes(s, portConnected, auto, stereo);
    case AudioOutHotPlug(_, _) =>
    case _ =>
      if Looks(e) { LooksOnlyLook(s, e); } else if Connects(e) { ConnectsConnect(s, e); } else { DropsDrop(s, e); }
  }

  lemma EnableKeepsDevice(s: State, enable: bool, system: PowerState, bitstream: bool)
    requires RoutedHasDevice(s)
    ensures RoutedHasDevice(OnEnablePort(s, enable, system, bitstream))
  {
  }

  lemma ReportKeepsDevice(s: State, report: Option<seq<int>>)
    requires RoutedHasDevice(s)
    ensures RoutedHasDevice(OnDescriptorReport(s, report)) <==>
            !(&& report.Some? && report.value != []
              && s.sad == SadRequested && s.routing == Initiated && s.sadTimer && s.devType == NoDevice)
  {
    DescriptorReportServes(s, report);
  }

  /** Disabling the port stops the audio exactly when a device type is known. */
  lemma DisableStopsExactlyWhenDeviceKnown(s: State, system: PowerState, bitstream: bool)
    requires s.audioEnabled
    ensures !OnEnablePort(s, false, system, bitstream).audioEnabled <==> s.devType != NoDevice
  {
  }

  /** It happens when CEC is disabled while descriptors are awaited; no request to disable the
      port then stops the audio. */
  lemma RoutedWithoutDevice(system: PowerState, bitstream: bool)
    ensures var s := After(INIT, REQUEST + [CecStatus(false)] + [DescriptorReport(Some([7]))]);
            s.audioEnabled && !s.connected && s.devType == NoDevice && OnEnablePort(s, false, system, bitstream).audioEnabled
  {
    DeviceIsLost();
    DisableStopsExactlyWhenDeviceKnown(
      After(INIT, REQUEST + [CecStatus(false)] + [DescriptorReport(Some([7]))]), system, bitstream);
  }

  lemma DescriptorsAreAwaited()
    ensures var s := After(INIT, REQUEST + [CecStatus(false)]);
            && !s.connected && s.devType == NoDevice && s.routing == Initiated
            && s.sad == SadRequested && s.sadTimer && !s.audioEnabled
  {
    RequestWaits();
    AfterAppend(INIT, REQUEST, CecStatus(false));
  }

  lemma DeviceIsLost()
    ensures var s := After(INIT, REQUEST + [CecStatus(false)] + [DescriptorReport(Some([7]))]);
            s.audioEnabled && !s.connected && s.devType == NoDevice
  {
    DescriptorsAreAwaited();
    AfterAppend(INIT, REQUEST + [CecStatus(false)], DescriptorReport(Some([7])));
  }

  // ---------------------------------------------------------------- detection

  function Detections(events: seq<Event>): nat {
    if events == [] then 0 else (if events[0].ArcTimer? then 1 else 0) + Detections(events[1..])
  }

  /** The detection timer is armed now and after each of the events. */
  predicate ArmedThroughout(s: State, events: seq<Event>)
    decreases |events|
  {
    s.detector.armed && (events != [] ==> ArmedThroughout(Next(s, events[0]), events[1..]))
  }

  lemma DetectionCounts(s: State, e: Event)
    requires Inv(s) && s.detector.armed && Next(s, e).detector.armed
    ensures Next(s, e).detector.tries == s.detector.tries + if e.ArcTimer? then 1 else 0
    ensures e.ArcTimer? ==> Next(s, e).detector.tries < DETECTION_TRIES
  {
    if e.ArcTimer? {
      ExpiryCounts(s, e.earc);
    } else {
      OthersLeaveTries(s, e);
    }
  }

  lemma ExpiryCounts(s: State, earc: bool)
    requires Inv(s) && s.detector.armed && OnArcTimer(s, earc).detector.armed
    ensures OnArcTimer(s, earc).detector.tries == s.detector.tries + 1 < DETECTION_TRIES
  {
    assert !s.connected;
    DetectConnects(s, earc);
  }

  lemma OthersLeaveTries(s: State, e: Event)
    requires Inv(s) && !e.ArcTimer?
    ensures Next(s, e).detector.tries == s.detector.tries
  {
    EveryEventHasItsKind(e);
    match e
    case Initiation(status, bitstream) => InitiationConnects(s, status, bitstream);
    case DevicePowerStatus(power, earc) => DevicePowerStatusConnects(s, power, earc);
    case AudioOutHotPlug(_, _) =>
    case _ => if Looks(e) { LooksOnlyLook(s, e); } else if Drops(e) { DropsDrop(s, e); } else { ServesLeaveLink(s, e); }
  }

  /** The timer's expiries since it was armed are counted, and the third at the latest stops it. */
  lemma {:induction false} DetectionEndsInThree(s: State, events: seq<Event>)
    requires Inv(s) && ArmedThroughout(s, events)
    ensures After(s, events).detector.tries == s.detector.tries + Detections(events)
    ensures Detections(events) > 0 ==> s.detector.tries + Detections(events) < DETECTION_TRIES
    decreases |events|
  {
    if events != [] {
      DetectionCounts(s, events[0]);
      NextKeepsInv(s, events[0]);
      DetectionEndsInThree(Next(s, events[0]), events[1..]);
    }
  }

  lemma TimerStopsWhenSettled(s: State, earc: bool)
    requires Inv(s) && s.detector.armed && !OnArcTimer(s, earc).detector.armed
    ensures var t := OnArcTimer(s, earc);
            (t.devType != NoDevice || t.routing == Initiated) && t.detector.tries == 0
  {
  }

  lemma InitiationIsRequestedExactlyWhen(s: State, earc: bool)
    ensures OnArcTimer(s, earc).routing != s.routing <==>
            && s.routing == Terminated && !s.connected && !earc && s.probe.cec
            && s.detector.tries + 1 >= DETECTION_TRIES
  {
  }

  /** When an expiry stops the timer, the device's type is known or ARC is initiated. Any expiry
      asks the device to initiate ARC exactly when the tries are used up without an eARC device,
      CEC is on and no initiation is under way. */
  lemma DetectionSettles(past: seq<Event>, earc: bool)
    ensures var s := After(INIT, past);
            var t := OnArcTimer(s, earc);
            && (s.detector.armed && !t.detector.armed ==>
                  (t.devType != NoDevice || t.routing == Initiated) && t.detector.tries == 0)
            && (t.routing != s.routing <==>
                  && s.routing == Terminated && !s.connected && !earc && s.probe.cec
                  && s.detector.tries + 1 >= DETECTION_TRIES)
  {
    var s := After(INIT, past);
    RunKeepsInv(INIT, past);
    InitiationIsRequestedExactlyWhen(s, earc);
    if s.detector.armed && !OnArcTimer(s, earc).detector.armed {
      TimerStopsWhenSettled(s, earc);
    }
  }
}
