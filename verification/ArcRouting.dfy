/** As which type of device audio is routed, against the type the device has. */
module ArcRouting {
  import opened PowerTypes
  import opened Arc
  import opened ArcFrames
  import opened ArcInvariants
  import opened ArcDescriptors

  /** Routed audio was commanded for the type that the device has. */
  predicate RoutedAsDevice(s: State) {
    s.audioEnabled ==> s.world.command.devType == s.devType != NoDevice
  }

  /** Steps that route audio for an ARC device to one that is none, or that find another type
      while the audio of the last connection is still routed. */
  predicate Mismatches(s: State, e: Event) {
    match e
    case SadTimer => !s.audioEnabled && s.connected && (s.sad == SadReceived || s.retrigger) && s.devType != ArcDevice
    case DescriptorReport(report) =>
      && !s.audioEnabled && report.Some? && report.value != [] && s.sad == SadRequested
      && s.routing == Initiated && s.sadTimer && s.devType != ArcDevice
    case ArcTimer(earc) =>
      && s.audioEnabled && !s.connected && s.routing != Initiated
      && (if earc then s.devType != EarcDevice else s.detector.tries + 1 >= DETECTION_TRIES && s.devType != ArcDevice)
    case DevicePowerStatus(power, earc) => s.audioEnabled && !s.connected && earc && power == ReportOn && s.devType != EarcDevice
    case _ => false
  }

  lemma EnablePortRoutesDevice(s: State, enable: bool, system: PowerState, bitstream: bool)
    requires RoutedAsDevice(s)
    ensures RoutedAsDevice(OnEnablePort(s, enable, system, bitstream))
  {
  }

  lemma SadTimerRoutesDevice(s: State)
    requires Inv(s) && RoutedAsDevice(s)
    ensures RoutedAsDevice(OnSadTimer(s)) <==> !Mismatches(s, SadTimer)
  {
  }

  lemma ReportRoutesDevice(s: State, report: Option<seq<int>>)
    requires RoutedAsDevice(s)
    ensures RoutedAsDevice(OnDescriptorReport(s, report)) <==> !Mismatches(s, DescriptorReport(report))
  {
  }

  lemma InitiationRoutesDevice(s: State, status: Option<bool>, bitstream: bool)
    requires RoutedAsDevice(s)
    ensures RoutedAsDevice(OnInitiation(s, status, bitstream))
  {
  }

  lemma ArcTimerRoutesDevice(s: State, earc: bool)
    requires RoutedAsDevice(s)
    ensures RoutedAsDevice(OnArcTimer(s, earc)) <==> !Mismatches(s, ArcTimer(earc))
  {
  }

  lemma PowerStatusRoutesDevice(s: State, power: DeviceReport, earc: bool)
    requires RoutedAsDevice(s)
    ensures RoutedAsDevice(OnDevicePowerStatus(s, power, earc)) <==> !Mismatches(s, DevicePowerStatus(power, earc))
  {
    ConfirmLooks(s);
  }

  lemma SetSoundModeRoutesDevice(s: State, portConnected: bool, auto: bool, stereo: StereoMode)
    requires RoutedAsDevice(s)
    ensures RoutedAsDevice(OnSetSoundMode(s, portConnected, auto, stereo))
  {
  }

  lemma DeviceGoneRoutesDevice(s: State)
    requires RoutedAsDevice(s)
    ensures RoutedAsDevice(OnDeviceGone(s))
  {
  }

  lemma DropsRouteDevice(s: State, e: Event)
    requires RoutedAsDevice(s) && Drops(e)
    ensures RoutedAsDevice(Next(s, e))
  {
    match e
    case DeviceStatus(_) => DeviceGoneRoutesDevice(s);
    case Termination(status) => TerminationRoutesDevice(s, status);
    case PowerModeChanged(system, arcSupported) => PowerModeRoutesDevice(s, system, arcSupported);
    case SystemAudioMode(_) =>
    case CecStatus(_) =>
    case HdmiInHotPlug(_, _) =>
    case GetConnectedPorts(_) =>
  }

  lemma TerminationRoutesDevice(s: State, status: Option<bool>)
    requires RoutedAsDevice(s)
    ensures RoutedAsDevice(OnTermination(s, status))
  {
  }

  lemma PowerModeRoutesDevice(s: State, system: PowerState, arcSupported: bool)
    requires RoutedAsDevice(s)
    ensures RoutedAsDevice(OnPowerModeChanged(s, system, arcSupported))
  {
  }

  /** Audio routed as the device's type stays so in every step exactly unless the step, by its
      guard, mismatches. */
  lemma NextRoutesDevice(s: State, e: Event)
    requires Inv(s) && RoutedAsDevice(s)
    ensures RoutedAsDevice(Next(s, e)) <==> !Mismatches(s, e)
  {
    EveryEventHasItsKind(e);
    match e
    case EnablePort(enable, system, bitstream) => EnablePortRoutesDevice(s, enable, system, bitstream);
    case SadTimer => SadTimerRoutesDevice(s);
    case DescriptorReport(report) => ReportRoutesDevice(s, report);
    case SetSoundMode(portConnected, auto, stereo) => SetSoundModeRoutesDevice(s, portConnected, auto, stereo);
    case Initiation(status, bitstream) => InitiationRoutesDevice(s, status, bitstream);
    case ArcTimer(earc) => ArcTimerRoutesDevice(s, earc);
    case DevicePowerStatus(power, earc) => PowerStatusRoutesDevice(s, power, earc);
    case AudioOutHotPlug(_, _) =>
    case _ => if Looks(e) { LooksOnlyLook(s, e); } else { DropsRouteDevice(s, e); }
  }

  /** No step of the run mismatches. */
  predicate NoMismatch(s: State, events: seq<Event>)
    decreases |events|
  {
    events == [] || (!Mismatches(s, events[0]) && NoMismatch(Next(s, events[0]), events[1..]))
  }

  lemma {:induction false} RunRoutesDevice(s: State, events: seq<Event>)
    requires Inv(s) && RoutedAsDevice(s) && NoMismatch(s, events)
    ensures RoutedAsDevice(After(s, events))
    decreases |events|
  {
    if events != [] {
      NextRoutesDevice(s, events[0]);
      NextKeepsInv(s, events[0]);
      RunRoutesDevice(Next(s, events[0]), events[1..]);
    }
  }

  /** When routed audio is switched off, the command names the type it was routed for exactly if
      the port is disabled on request, or the type is ARC: power-off always names ARC. */
  lemma SwitchOffNamesTypeExactlyWhen(s: State, e: Event)
    requires Inv(s) && RoutedAsDevice(s) && s.audioEnabled && !Next(s, e).audioEnabled
    ensures !Next(s, e).world.command.on
    ensures Next(s, e).world.command.devType == s.world.command.devType <==> e.EnablePort? || s.devType == ArcDevice
  {
    EveryEventHasItsKind(e);
    match e
    case SetSoundMode(portConnected, auto, stereo) => SetSoundModeServes(s, portConnected, auto, stereo);
    case DeviceStatus(_) => KeepsAudio(s, e);
    case _ => if Looks(e) { LooksOnlyLook(s, e); } else if Connects(e) { ConnectsConnect(s, e); } else { KeepsAudio(s, e); }
  }

  lemma KeepsAudio(s: State, e: Event)
    requires s.audioEnabled && RoutedAsDevice(s)
    requires !Looks(e) && !Connects(e) && !e.SetSoundMode?
    ensures !Next(s, e).audioEnabled ==>
              && (e.EnablePort? || e.PowerModeChanged?) && !Next(s, e).world.command.on
              && Next(s, e).world.command.devType == if e.EnablePort? then s.world.command.devType else ArcDevice
  {
    match e
    case EnablePort(_, _, _) =>
    case SadTimer =>
    case DescriptorReport(_) =>
    case DeviceStatus(_) =>
    case PowerModeChanged(_, _) =>
    case _ =>
  }

  /** Whatever the state, when the system leaves ON on a device with ARC, the connection and its
      routing end, no type is known, the timers stop, and routed audio is switched off. */
  lemma LeavingOnEndsEverything(s: State, system: PowerState)
    requires system != On
    ensures var t := Next(s, PowerModeChanged(system, true));
            && !t.connected && t.routing == Terminated && !t.audioEnabled && t.devType == NoDevice && !t.retrigger
            && !t.sadTimer && !t.detector.armed && !t.probe.powerTimer
            && t.world.command == (if s.audioEnabled then Command(ArcDevice, false) else s.world.command)
            && t.world.notifications == s.world.notifications + (if s.connected then [false] else [])
            && SameList(s, t) && t.sad == s.sad
  {
  }

  /** An eARC device is routed as an ARC one when it is found while the descriptor timer of an
      ARC connection still runs. */
  lemma EarcIsRoutedAsArc()
    ensures var s := After(INIT, REQUEST + [SystemAudioMode(ModeOff)] + [DevicePowerStatus(ReportOn, true)] + [SadTimer] + [SadTimer]);
            s.connected && s.devType == EarcDevice && s.audioEnabled && s.world.command == Command(ArcDevice, true)
  {
    var events := REQUEST + [SystemAudioMode(ModeOff)] + [DevicePowerStatus(ReportOn, true)];
    EarcIsFound();
    AfterAppend(INIT, events, SadTimer);
    AfterAppend(INIT, events + [SadTimer], SadTimer);
  }

  lemma FindsEarc(s: State)
    requires !s.connected
    ensures var t := OnDevicePowerStatus(s, ReportOn, true);
            && t.connected && t.devType == EarcDevice && t.audioEnabled == s.audioEnabled && t.sadTimer == s.sadTimer
            && t.sad == s.sad && t.retrigger == s.retrigger
  {
  }

  lemma TimerOutlivesConnection()
    ensures var s := After(INIT, REQUEST + [SystemAudioMode(ModeOff)]);
            !s.connected && !s.audioEnabled && s.sadTimer && s.sad == SadRequested && !s.retrigger
  {
    RequestWaits();
    AfterAppend(INIT, REQUEST, SystemAudioMode(ModeOff));
  }

  lemma EarcIsFound()
    ensures var s := After(INIT, REQUEST + [SystemAudioMode(ModeOff)] + [DevicePowerStatus(ReportOn, true)]);
            && s.connected && s.devType == EarcDevice && !s.audioEnabled && s.sadTimer
            && s.sad == SadRequested && !s.retrigger
  {
    TimerOutlivesConnection();
    AfterAppend(INIT, REQUEST + [SystemAudioMode(ModeOff)], DevicePowerStatus(ReportOn, true));
    FindsEarc(After(INIT, REQUEST + [SystemAudioMode(ModeOff)]));
  }
}
