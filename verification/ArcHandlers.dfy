/** The nineteen ARC handlers agree with what is said of each flag on its own, path by path. */
module ArcHandlers {
  import opened PowerTypes
  import opened Arc
  import opened ArcFrames
  import opened ArcInvariants
  import opened ArcFlags

  // ---------------------------------------------------------------- looking

  lemma LookedLink(s: State, t: State, e: Event)
    requires Looks(e) && OnlyLooked(s, t)
    ensures Linked(s, t, e)
  {
  }

  lemma LookedServes(s: State, t: State, e: Event)
    requires Looks(e) && OnlyLooked(s, t)
    ensures DescriptorsFollow(s, t, e)
  {
  }

  lemma PowerTimerAsks(s: State, subscribed: bool)
    requires AsksPowerAgain(s, PowerTimer(subscribed))
    ensures Asks(s, OnPowerTimer(s, subscribed), PowerTimer(subscribed))
  {
  }

  lemma PowerTimerGivesUp(s: State, subscribed: bool)
    requires !AsksPowerAgain(s, PowerTimer(subscribed)) && s.probe.powerRetries >= 5 && s.probe.powerTimer
    ensures Asks(s, OnPowerTimer(s, subscribed), PowerTimer(subscribed))
  {
  }

  lemma PowerTimerWaits(s: State, subscribed: bool)
    requires !AsksPowerAgain(s, PowerTimer(subscribed)) && !(s.probe.powerRetries >= 5 && s.probe.powerTimer)
    ensures Asks(s, OnPowerTimer(s, subscribed), PowerTimer(subscribed))
  {
  }

  lemma DetectTimerAsks(s: State, subscribed: bool)
    ensures Asks(s, OnDetectTimer(s, subscribed), DetectTimer(subscribed))
  {
  }

  lemma ReconnectTimerAsks(s: State, cec: bool, subscribed: bool)
    ensures Asks(s, OnReconnectTimer(s, cec, subscribed), ReconnectTimer(cec, subscribed))
  {
  }

  lemma PortsInitialisedAsks(s: State, present: bool, cec: bool, subscribed: bool)
    ensures Asks(s, OnPortsInitialised(s, present, cec, subscribed), PortsInitialised(present, cec, subscribed))
  {
  }

  lemma SystemAudioAsks(s: State, mode: AudioMode)
    requires mode != ModeOff
    ensures Asks(s, OnSystemAudioMode(s, mode), SystemAudioMode(mode))
  {
  }

  lemma DeviceFoundAsks(s: State)
    ensures Asks(s, OnDeviceStatus(s, true), DeviceStatus(true))
  {
  }

  lemma OthersAsk(s: State, e: Event)
    requires Looks(e) && (e.CecStatus? || e.PowerModeChanged? || e.HdmiInHotPlug? || e.GetConnectedPorts?)
    ensures Asks(s, Next(s, e), e)
  {
  }

  lemma LooksFollow(s: State, e: Event)
    requires Looks(e)
    ensures Follows(s, Next(s, e), e)
  {
    LooksOnlyLook(s, e);
    match e {
      case PowerTimer(subscribed) =>
        if AsksPowerAgain(s, e) {
          PowerTimerAsks(s, subscribed);
        } else if s.probe.powerRetries >= 5 && s.probe.powerTimer {
          PowerTimerGivesUp(s, subscribed);
        } else {
          PowerTimerWaits(s, subscribed);
        }
      case DetectTimer(subscribed) => DetectTimerAsks(s, subscribed);
      case ReconnectTimer(cec, subscribed) => ReconnectTimerAsks(s, cec, subscribed);
      case PortsInitialised(present, cec, subscribed) => PortsInitialisedAsks(s, present, cec, subscribed);
      case SystemAudioMode(mode) => SystemAudioAsks(s, mode);
      case DeviceStatus(_) => DeviceFoundAsks(s);
      case _ => OthersAsk(s, e);
    }
    LookedLink(s, Next(s, e), e);
    LookedServes(s, Next(s, e), e);
  }

  // ---------------------------------------------------------------- connecting

  lemma InitiationIgnored(s: State, status: Option<bool>, bitstream: bool)
    requires Inv(s) && !Heeds(s, status)
    ensures Follows(s, OnInitiation(s, status, bitstream), Initiation(status, bitstream))
  {
  }

  lemma InitiationFailedIs(s: State, bitstream: bool)
    requires s.routing != Initiated && s.probe.confirmed
    ensures OnInitiation(s, Some(false), bitstream) == s.(routing := Terminated)
  {
  }

  lemma RoutingEnds(s: State, bitstream: bool)
    requires Inv(s) && s.routing != Initiated && s.probe.confirmed
    ensures Follows(s, s.(routing := Terminated), Initiation(Some(false), bitstream))
  {
  }

  predicate SameService(s: State, t: State) {
    && t.sad == s.sad && t.sadList == s.sadList && t.retrigger == s.retrigger
    && t.archive.kept == s.archive.kept && t.archive.given == s.archive.given
    && t.world.asked == s.world.asked && t.world.taken == s.world.taken && t.world.sent == s.world.sent
    && t.detector == s.detector && t.probe == s.probe
  }

  lemma BeginLeavesService(s: State)
    ensures SameService(s, Begin(s))
  {
  }

  lemma AskingInitiationServes(s: State, t: State)
    requires Inv(s) && s.routing != Initiated && s.probe.confirmed && Missing(s) && SameService(Request(s), t)
    ensures Served(s, t, Initiation(Some(true), true))
  {
  }

  lemma PlainInitiationServes(s: State, t: State, bitstream: bool)
    requires Inv(s) && !(Missing(s) && bitstream) && SameService(s, t)
    ensures Served(s, t, Initiation(Some(true), bitstream))
  {
  }

  lemma AskingInitiationAgainLink(s: State)
    requires Inv(s) && s.routing != Initiated && s.probe.confirmed && Missing(s) && s.connected
    ensures Linked(s, OnInitiation(s, Some(true), true), Initiation(Some(true), true))
  {
  }

  lemma PlainInitiationAgainLink(s: State, bitstream: bool)
    requires Inv(s) && s.routing != Initiated && s.probe.confirmed && !(Missing(s) && bitstream) && s.connected
    ensures Linked(s, OnInitiation(s, Some(true), bitstream), Initiation(Some(true), bitstream))
  {
  }

  lemma AskingInitiationOfNewLink(s: State)
    requires Inv(s) && s.routing != Initiated && s.probe.confirmed && Missing(s) && !s.connected && s.devType == NoDevice
    ensures Linked(s, OnInitiation(s, Some(true), true), Initiation(Some(true), true))
  {
  }

  lemma PlainInitiationOfNewLink(s: State, bitstream: bool)
    requires Inv(s)
    requires s.routing != Initiated && s.probe.confirmed && !(Missing(s) && bitstream) && !s.connected && s.devType == NoDevice
    ensures Linked(s, OnInitiation(s, Some(true), bitstream), Initiation(Some(true), bitstream))
  {
  }

  lemma AskingInitiationOfKnownLink(s: State)
    requires Inv(s) && s.routing != Initiated && s.probe.confirmed && Missing(s) && !s.connected && s.devType != NoDevice
    ensures Linked(s, OnInitiation(s, Some(true), true), Initiation(Some(true), true))
  {
  }

  lemma PlainInitiationOfKnownLink(s: State, bitstream: bool)
    requires Inv(s)
    requires s.routing != Initiated && s.probe.confirmed && !(Missing(s) && bitstream) && !s.connected && s.devType != NoDevice
    ensures Linked(s, OnInitiation(s, Some(true), bitstream), Initiation(Some(true), bitstream))
  {
  }

  lemma DetectionIdle(s: State, earc: bool)
    requires Inv(s) && (s.routing == Initiated || s.connected) && !s.detector.armed
    ensures Follows(s, OnArcTimer(s, earc), ArcTimer(earc))
  {
  }

  lemma DetectionOver(s: State, earc: bool)
    requires Inv(s) && s.routing == Initiated && s.detector.armed
    ensures Follows(s, OnArcTimer(s, earc), ArcTimer(earc))
  {
  }

  lemma DetectionOfKnown(s: State, earc: bool)
    requires Inv(s) && s.connected && s.routing != Initiated && s.detector.armed
    ensures Follows(s, OnArcTimer(s, earc), ArcTimer(earc))
  {
  }

  lemma EarcDetectedUntoldLink(s: State)
    requires Inv(s) && s.routing != Initiated && !s.connected && !s.notified
    ensures Linked(s, OnArcTimer(s, true), ArcTimer(true))
  {
  }

  lemma EarcDetectedUntoldServes(s: State)
    requires Inv(s) && s.routing != Initiated && !s.connected && !s.notified
    ensures Served(s, OnArcTimer(s, true), ArcTimer(true))
  {
  }

  lemma EarcDetectedToldLink(s: State)
    requires Inv(s) && s.routing != Initiated && !s.connected && s.notified
    ensures Linked(s, OnArcTimer(s, true), ArcTimer(true))
  {
  }

  lemma EarcDetectedToldServes(s: State)
    requires Inv(s) && s.routing != Initiated && !s.connected && s.notified
    ensures Served(s, OnArcTimer(s, true), ArcTimer(true))
  {
  }

  lemma DetectionFailsLink(s: State)
    requires Inv(s) && s.routing != Initiated && !s.connected && s.detector.tries + 1 < 3
    ensures Linked(s, OnArcTimer(s, false), ArcTimer(false))
  {
  }

  lemma DetectionFailsServes(s: State)
    requires Inv(s) && s.routing != Initiated && !s.connected && s.detector.tries + 1 < 3
    ensures Served(s, OnArcTimer(s, false), ArcTimer(false))
  {
  }

  lemma ArcSettledArmed(s: State)
    requires Inv(s)
    requires s.routing != Initiated && !s.connected && s.detector.tries + 1 >= 3
    requires !(s.routing == Terminated && s.probe.cec) && s.detector.armed
    ensures Follows(s, OnArcTimer(s, false), ArcTimer(false))
  {
  }

  lemma ArcRequestedArmedLink(s: State)
    requires Inv(s) && !s.connected && s.routing == Terminated && s.probe.cec && s.detector.tries + 1 >= 3 && s.detector.armed
    ensures Linked(s, OnArcTimer(s, false), ArcTimer(false))
  {
  }

  lemma ArcRequestedArmedServes(s: State)
    requires Inv(s) && !s.connected && s.routing == Terminated && s.probe.cec && s.detector.tries + 1 >= 3 && s.detector.armed
    ensures Served(s, OnArcTimer(s, false), ArcTimer(false))
  {
  }

  lemma ArcSettledUnarmed(s: State)
    requires Inv(s)
    requires s.routing != Initiated && !s.connected && s.detector.tries + 1 >= 3
    requires !(s.routing == Terminated && s.probe.cec) && !s.detector.armed
    ensures Follows(s, OnArcTimer(s, false), ArcTimer(false))
  {
  }

  lemma ArcRequestedUnarmedLink(s: State)
    requires Inv(s) && !s.connected && s.routing == Terminated && s.probe.cec && s.detector.tries + 1 >= 3 && !s.detector.armed
    ensures Linked(s, OnArcTimer(s, false), ArcTimer(false))
  {
  }

  lemma ArcRequestedUnarmedServes(s: State)
    requires Inv(s) && !s.connected && s.routing == Terminated && s.probe.cec && s.detector.tries + 1 >= 3 && !s.detector.armed
    ensures Served(s, OnArcTimer(s, false), ArcTimer(false))
  {
  }

  lemma DeviceStandby(s: State, earc: bool)
    requires Inv(s)
    ensures Follows(s, OnDevicePowerStatus(s, ReportStandby, earc), DevicePowerStatus(ReportStandby, earc))
  {
  }

  lemma DeviceStarting(s: State, earc: bool)
    requires Inv(s)
    ensures Follows(s, OnDevicePowerStatus(s, ReportStarting, earc), DevicePowerStatus(ReportStarting, earc))
  {
  }

  lemma DeviceOther(s: State, earc: bool)
    requires Inv(s)
    ensures Follows(s, OnDevicePowerStatus(s, ReportOther, earc), DevicePowerStatus(ReportOther, earc))
  {
  }

  lemma ConnectedIsOnAwaited(s: State, earc: bool)
    requires Inv(s) && s.connected && s.probe.powerTimer
    ensures Follows(s, OnDevicePowerStatus(s, ReportOn, earc), DevicePowerStatus(ReportOn, earc))
  {
  }

  lemma EarcIsOnAwaited(s: State)
    requires Inv(s) && !s.connected && s.probe.powerTimer
    ensures Follows(s, OnDevicePowerStatus(s, ReportOn, true), DevicePowerStatus(ReportOn, true))
  {
  }

  lemma OtherIsOnAwaited(s: State)
    requires Inv(s) && !s.connected && s.probe.powerTimer
    ensures Follows(s, OnDevicePowerStatus(s, ReportOn, false), DevicePowerStatus(ReportOn, false))
  {
  }

  lemma ConnectedIsOnUnawaited(s: State, earc: bool)
    requires Inv(s) && s.connected && !s.probe.powerTimer
    ensures Follows(s, OnDevicePowerStatus(s, ReportOn, earc), DevicePowerStatus(ReportOn, earc))
  {
  }

  lemma EarcIsOnUnawaited(s: State)
    requires Inv(s) && !s.connected && !s.probe.powerTimer
    ensures Follows(s, OnDevicePowerStatus(s, ReportOn, true), DevicePowerStatus(ReportOn, true))
  {
  }

  lemma OtherIsOnUnawaited(s: State)
    requires Inv(s) && !s.connected && !s.probe.powerTimer
    ensures Follows(s, OnDevicePowerStatus(s, ReportOn, false), DevicePowerStatus(ReportOn, false))
  {
  }

  // ---------------------------------------------------------------- disconnecting

  lemma TerminationUnsaidCleared(s: State)
    requires Inv(s) && s.sad == SadCleared
    ensures Follows(s, OnTermination(s, None), Termination(None))
  {
  }

  lemma TerminationIdleCleared(s: State, status: bool)
    requires Inv(s) && s.routing == Terminated && s.sad == SadCleared
    ensures Follows(s, OnTermination(s, Some(status)), Termination(Some(status)))
  {
  }

  lemma TerminationFailedCleared(s: State)
    requires Inv(s) && s.routing != Terminated && s.sad == SadCleared
    ensures Follows(s, OnTermination(s, Some(false)), Termination(Some(false)))
  {
  }

  lemma TerminationDoneCleared(s: State)
    requires Inv(s) && s.routing != Terminated && s.sad == SadCleared
    ensures Follows(s, OnTermination(s, Some(true)), Termination(Some(true)))
  {
  }

  lemma TerminationUnsaidClearing(s: State)
    requires Inv(s) && s.sad != SadCleared
    ensures Follows(s, OnTermination(s, None), Termination(None))
  {
  }

  lemma TerminationIdleClearing(s: State, status: bool)
    requires Inv(s) && s.routing == Terminated && s.sad != SadCleared
    ensures Follows(s, OnTermination(s, Some(status)), Termination(Some(status)))
  {
  }

  lemma TerminationFailedClearing(s: State)
    requires Inv(s) && s.routing != Terminated && s.sad != SadCleared
    ensures Follows(s, OnTermination(s, Some(false)), Termination(Some(false)))
  {
  }

  lemma TerminationDoneClearing(s: State)
    requires Inv(s) && s.routing != Terminated && s.sad != SadCleared
    ensures Follows(s, OnTermination(s, Some(true)), Termination(Some(true)))
  {
  }

  lemma SystemAudioOffLink(s: State)
    requires Inv(s)
    ensures Linked(s, OnSystemAudioMode(s, ModeOff), SystemAudioMode(ModeOff))
  {
  }

  lemma SystemAudioOffServes(s: State)
    requires Inv(s)
    ensures Served(s, OnSystemAudioMode(s, ModeOff), SystemAudioMode(ModeOff))
  {
  }

  lemma ConnectedIsGoneLink(s: State)
    requires Inv(s) && s.connected
    ensures Linked(s, OnDeviceStatus(s, false), DeviceStatus(false))
  {
  }

  lemma ConnectedIsGoneServes(s: State)
    requires Inv(s) && s.connected
    ensures Served(s, OnDeviceStatus(s, false), DeviceStatus(false))
  {
  }

  lemma RoutedIsGone(s: State)
    requires Inv(s) && !s.connected && s.audioEnabled
    ensures Follows(s, OnDeviceStatus(s, false), DeviceStatus(false))
  {
  }

  lemma OtherIsGoneLink(s: State)
    requires Inv(s) && !s.connected && !s.audioEnabled
    ensures Linked(s, OnDeviceStatus(s, false), DeviceStatus(false))
  {
  }

  lemma OtherIsGoneServes(s: State)
    requires Inv(s) && !s.connected && !s.audioEnabled
    ensures Served(s, OnDeviceStatus(s, false), DeviceStatus(false))
  {
  }

  lemma CecOffConnectedLink(s: State)
    requires Inv(s) && s.connected
    ensures Linked(s, OnCecStatus(s, false), CecStatus(false))
  {
  }

  lemma CecOffConnectedServes(s: State)
    requires Inv(s) && s.connected
    ensures Served(s, OnCecStatus(s, false), CecStatus(false))
  {
  }

  lemma CecOffDisconnected(s: State)
    requires Inv(s) && !s.connected
    ensures Follows(s, OnCecStatus(s, false), CecStatus(false))
  {
  }

  lemma LeavingOnConnected(s: State, system: PowerState)
    requires Inv(s) && system != On && s.connected
    ensures Follows(s, OnPowerModeChanged(s, system, true), PowerModeChanged(system, true))
  {
  }

  lemma LeavingOnDisconnected(s: State, system: PowerState)
    requires Inv(s) && system != On && !s.connected
    ensures Follows(s, OnPowerModeChanged(s, system, true), PowerModeChanged(system, true))
  {
  }

  lemma LeavingOnUnsupported(s: State, system: PowerState)
    requires Inv(s)
    ensures Follows(s, OnPowerModeChanged(s, system, false), PowerModeChanged(system, false))
  {
  }

  lemma UnplugConnectedLink(s: State)
    requires Inv(s) && s.connected
    ensures Linked(s, OnHdmiInHotPlug(s, true, false), HdmiInHotPlug(true, false))
  {
  }

  lemma UnplugConnectedServes(s: State)
    requires Inv(s) && s.connected
    ensures Served(s, OnHdmiInHotPlug(s, true, false), HdmiInHotPlug(true, false))
  {
  }

  lemma UnplugDisconnectedLink(s: State)
    requires Inv(s) && !s.connected
    ensures Linked(s, OnHdmiInHotPlug(s, true, false), HdmiInHotPlug(true, false))
  {
  }

  lemma UnplugDisconnectedServes(s: State)
    requires Inv(s) && !s.connected
    ensures Served(s, OnHdmiInHotPlug(s, true, false), HdmiInHotPlug(true, false))
  {
  }

  lemma UnplugElsewhere(s: State)
    requires Inv(s)
    ensures Follows(s, OnHdmiInHotPlug(s, false, false), HdmiInHotPlug(false, false))
  {
  }

  lemma QueryLink(s: State)
    requires Inv(s)
    ensures Linked(s, OnGetConnectedPorts(s, false), GetConnectedPorts(false))
  {
  }

  lemma QueryServes(s: State)
    requires Inv(s)
    ensures Served(s, OnGetConnectedPorts(s, false), GetConnectedPorts(false))
  {
  }

  // ---------------------------------------------------------------- serving

  lemma EnableRefused(s: State, system: PowerState, bitstream: bool)
    requires Inv(s) && !Enables(s, EnablePort(true, system, bitstream))
    ensures Follows(s, OnEnablePort(s, true, system, bitstream), EnablePort(true, system, bitstream))
  {
  }

  lemma EnableEarc(s: State, system: PowerState, bitstream: bool)
    requires Inv(s) && Enables(s, EnablePort(true, system, bitstream)) && s.devType == EarcDevice
    ensures Follows(s, OnEnablePort(s, true, system, bitstream), EnablePort(true, system, bitstream))
  {
  }

  lemma EnableArc(s: State, system: PowerState, bitstream: bool)
    requires Inv(s) && Enables(s, EnablePort(true, system, bitstream)) && s.devType == ArcDevice
    ensures Follows(s, OnEnablePort(s, true, system, bitstream), EnablePort(true, system, bitstream))
  {
  }

  lemma DisableConnected(s: State, system: PowerState, bitstream: bool)
    requires Inv(s) && s.connected
    ensures Follows(s, OnEnablePort(s, false, system, bitstream), EnablePort(false, system, bitstream))
  {
  }

  lemma DisableDisconnectedLink(s: State, system: PowerState, bitstream: bool)
    requires Inv(s) && !s.connected
    ensures Linked(s, OnEnablePort(s, false, system, bitstream), EnablePort(false, system, bitstream))
  {
  }

  lemma DisableDisconnectedServes(s: State, system: PowerState, bitstream: bool)
    requires Inv(s) && !s.connected
    ensures Served(s, OnEnablePort(s, false, system, bitstream), EnablePort(false, system, bitstream))
  {
  }

  lemma ExpiryLink(s: State)
    requires Inv(s)
    ensures Linked(s, OnSadTimer(s), SadTimer)
  {
  }

  lemma ExpiryServes(s: State)
    requires Inv(s)
    ensures Served(s, OnSadTimer(s), SadTimer)
  {
  }

  lemma ReportIgnored(s: State, report: Option<seq<int>>)
    requires Inv(s) && !Takes(s, DescriptorReport(report))
    ensures Follows(s, OnDescriptorReport(s, report), DescriptorReport(report))
  {
  }

  lemma ReportKeptLink(s: State, report: seq<int>)
    requires Inv(s) && s.sad == SadRequested && (report == [] || s.routing != Initiated)
    ensures Linked(s, OnDescriptorReport(s, Some(report)), DescriptorReport(Some(report)))
  {
  }

  lemma ReportKeptServes(s: State, report: seq<int>)
    requires Inv(s) && s.sad == SadRequested && (report == [] || s.routing != Initiated)
    ensures Served(s, OnDescriptorReport(s, Some(report)), DescriptorReport(Some(report)))
  {
  }

  lemma ReportRouted(s: State, report: seq<int>)
    requires Inv(s) && s.sad == SadRequested && report != [] && s.routing == Initiated && s.audioEnabled
    ensures Follows(s, OnDescriptorReport(s, Some(report)), DescriptorReport(Some(report)))
  {
  }

  lemma ReportAwaited(s: State, report: seq<int>)
    requires Inv(s) && s.sad == SadRequested && report != [] && s.routing == Initiated && !s.audioEnabled && s.sadTimer
    ensures Follows(s, OnDescriptorReport(s, Some(report)), DescriptorReport(Some(report)))
  {
  }

  lemma ReportStored(s: State, report: seq<int>)
    requires Inv(s) && s.sad == SadRequested && report != [] && s.routing == Initiated && !s.audioEnabled && !s.sadTimer
    ensures Follows(s, OnDescriptorReport(s, Some(report)), DescriptorReport(Some(report)))
  {
  }

  lemma AutoSoundLink(s: State, stereo: StereoMode)
    requires Inv(s) && ChangesSound(s, SetSoundMode(true, true, stereo))
    ensures Linked(s, OnSetSoundMode(s, true, true, stereo), SetSoundMode(true, true, stereo))
  {
  }

  lemma AutoSoundServes(s: State, stereo: StereoMode)
    requires Inv(s) && ChangesSound(s, SetSoundMode(true, true, stereo))
    ensures Served(s, OnSetSoundMode(s, true, true, stereo), SetSoundMode(true, true, stereo))
  {
  }

  lemma StereoSoundLink(s: State)
    requires Inv(s) && ChangesSound(s, SetSoundMode(true, false, Stereo))
    ensures Linked(s, OnSetSoundMode(s, true, false, Stereo), SetSoundMode(true, false, Stereo))
  {
  }

  lemma StereoSoundServes(s: State)
    requires Inv(s) && ChangesSound(s, SetSoundMode(true, false, Stereo))
    ensures Served(s, OnSetSoundMode(s, true, false, Stereo), SetSoundMode(true, false, Stereo))
  {
  }

  lemma OtherSoundLink(s: State, stereo: StereoMode)
    requires Inv(s) && stereo != Stereo && ChangesSound(s, SetSoundMode(true, false, stereo))
    ensures Linked(s, OnSetSoundMode(s, true, false, stereo), SetSoundMode(true, false, stereo))
  {
  }

  lemma OtherSoundServes(s: State, stereo: StereoMode)
    requires Inv(s) && stereo != Stereo && ChangesSound(s, SetSoundMode(true, false, stereo))
    ensures Served(s, OnSetSoundMode(s, true, false, stereo), SetSoundMode(true, false, stereo))
  {
  }

  lemma SoundIgnored(s: State, portConnected: bool, auto: bool, stereo: StereoMode)
    requires Inv(s) && !ChangesSound(s, SetSoundMode(portConnected, auto, stereo))
    ensures Follows(s, OnSetSoundMode(s, portConnected, auto, stereo), SetSoundMode(portConnected, auto, stereo))
  {
  }

  lemma PortHotPlugFollows(s: State, arcPort: bool, plugged: bool)
    requires Inv(s)
    ensures Follows(s, OnAudioOutHotPlug(s, arcPort, plugged), AudioOutHotPlug(arcPort, plugged))
  {
  }

  // ---------------------------------------------------------------- all handlers

  lemma InitiationFollows(s: State, status: Option<bool>, bitstream: bool)
    requires Inv(s)
    ensures Follows(s, OnInitiation(s, status, bitstream), Initiation(status, bitstream))
  {
    if !Heeds(s, status) {
      InitiationIgnored(s, status, bitstream);
    } else if !status.value {
      InitiationFailedIs(s, bitstream);
      RoutingEnds(s, bitstream);
    } else if Missing(s) && bitstream {
      BeginLeavesService(Request(s));
      AskingInitiationServes(s, Begin(Request(s)));
      if s.connected {
        AskingInitiationAgainLink(s);
      } else if s.devType == NoDevice {
        AskingInitiationOfNewLink(s);
      } else {
        AskingInitiationOfKnownLink(s);
      }
    } else {
      BeginLeavesService(s);
      PlainInitiationServes(s, Begin(s), bitstream);
      if s.connected {
        PlainInitiationAgainLink(s, bitstream);
      } else if s.devType == NoDevice {
        PlainInitiationOfNewLink(s, bitstream);
      } else {
        PlainInitiationOfKnownLink(s, bitstream);
      }
    }
  }

  lemma ArcTimerFollows(s: State, earc: bool)
    requires Inv(s)
    ensures Follows(s, OnArcTimer(s, earc), ArcTimer(earc))
  {
    if s.routing == Initiated || s.connected {
      if !s.detector.armed {
        DetectionIdle(s, earc);
      } else if s.routing == Initiated {
        DetectionOver(s, earc);
      } else {
        DetectionOfKnown(s, earc);
      }
    } else if earc {
      if s.notified {
        EarcDetectedToldLink(s);
        EarcDetectedToldServes(s);
      } else {
        EarcDetectedUntoldLink(s);
        EarcDetectedUntoldServes(s);
      }
    } else if s.detector.tries + 1 < 3 {
      DetectionFailsLink(s);
      DetectionFailsServes(s);
    } else if s.routing == Terminated && s.probe.cec {
      if s.detector.armed {
        ArcRequestedArmedLink(s);
        ArcRequestedArmedServes(s);
      } else {
        ArcRequestedUnarmedLink(s);
        ArcRequestedUnarmedServes(s);
      }
    } else {
      if s.detector.armed {
        ArcSettledArmed(s);
      } else {
        ArcSettledUnarmed(s);
      }
    }
  }

  lemma DeviceOnFollows(s: State, earc: bool)
    requires Inv(s)
    ensures Follows(s, OnDevicePowerStatus(s, ReportOn, earc), DevicePowerStatus(ReportOn, earc))
  {
    if s.connected {
      if s.probe.powerTimer {
        ConnectedIsOnAwaited(s, earc);
      } else {
        ConnectedIsOnUnawaited(s, earc);
      }
    } else if earc {
      if s.probe.powerTimer {
        EarcIsOnAwaited(s);
      } else {
        EarcIsOnUnawaited(s);
      }
    } else {
      if s.probe.powerTimer {
        OtherIsOnAwaited(s);
      } else {
        OtherIsOnUnawaited(s);
      }
    }
  }

  lemma ConnectsFollow(s: State, e: Event)
    requires Inv(s) && Connects(e)
    ensures Follows(s, Next(s, e), e)
  {
    match e
    case Initiation(status, bitstream) => InitiationFollows(s, status, bitstream);
    case ArcTimer(earc) => ArcTimerFollows(s, earc);
    case DevicePowerStatus(power, earc) =>
      match power
      case ReportOn => DeviceOnFollows(s, earc);
      case ReportStandby => DeviceStandby(s, earc);
      case ReportStarting => DeviceStarting(s, earc);
      case ReportOther => DeviceOther(s, earc);
  }

  lemma TerminationFollows(s: State, status: Option<bool>)
    requires Inv(s)
    ensures Follows(s, OnTermination(s, status), Termination(status))
  {
    if status == None {
      if s.sad == SadCleared {
        TerminationUnsaidCleared(s);
      } else {
        TerminationUnsaidClearing(s);
      }
    } else if s.sad == SadCleared {
      if s.routing == Terminated {
        TerminationIdleCleared(s, status.value);
      } else if status.value {
        TerminationDoneCleared(s);
      } else {
        TerminationFailedCleared(s);
      }
    } else {
      if s.routing == Terminated {
        TerminationIdleClearing(s, status.value);
      } else if status.value {
        TerminationDoneClearing(s);
      } else {
        TerminationFailedClearing(s);
      }
    }
  }

  lemma DropsFollow(s: State, e: Event)
    requires Inv(s) && Drops(e)
    ensures Follows(s, Next(s, e), e)
  {
    match e
    case Termination(status) => TerminationFollows(s, status);
    case SystemAudioMode(_) =>
      SystemAudioOffLink(s);
      SystemAudioOffServes(s);
    case DeviceStatus(_) =>
      if s.connected {
        ConnectedIsGoneLink(s);
        ConnectedIsGoneServes(s);
      } else if s.audioEnabled {
        RoutedIsGone(s);
      } else {
        OtherIsGoneLink(s);
        OtherIsGoneServes(s);
      }
    case CecStatus(_) =>
      if s.connected {
        CecOffConnectedLink(s);
        CecOffConnectedServes(s);
      } else {
        CecOffDisconnected(s);
      }
    case PowerModeChanged(system, arcSupported) =>
      if !arcSupported {
        LeavingOnUnsupported(s, system);
      } else if s.connected {
        LeavingOnConnected(s, system);
      } else {
        LeavingOnDisconnected(s, system);
      }
    case HdmiInHotPlug(arcPort, _) =>
      if !arcPort {
        UnplugElsewhere(s);
      } else if s.connected {
        UnplugConnectedLink(s);
        UnplugConnectedServes(s);
      } else {
        UnplugDisconnectedLink(s);
        UnplugDisconnectedServes(s);
      }
    case GetConnectedPorts(_) =>
      QueryLink(s);
      QueryServes(s);
  }

  lemma EnablePortFollows(s: State, enable: bool, system: PowerState, bitstream: bool)
    requires Inv(s)
    ensures Follows(s, OnEnablePort(s, enable, system, bitstream), EnablePort(enable, system, bitstream))
  {
    if !enable {
      if s.connected {
        DisableConnected(s, system, bitstream);
      } else {
        DisableDisconnectedLink(s, system, bitstream);
        DisableDisconnectedServes(s, system, bitstream);
      }
    } else if !Enables(s, EnablePort(true, system, bitstream)) {
      EnableRefused(s, system, bitstream);
    } else if s.devType == EarcDevice {
      EnableEarc(s, system, bitstream);
    } else {
      EnableArc(s, system, bitstream);
    }
  }

  lemma ReportFollows(s: State, report: Option<seq<int>>)
    requires Inv(s)
    ensures Follows(s, OnDescriptorReport(s, report), DescriptorReport(report))
  {
    if !Takes(s, DescriptorReport(report)) {
      ReportIgnored(s, report);
    } else if report.value == [] || s.routing != Initiated {
      ReportKeptLink(s, report.value);
      ReportKeptServes(s, report.value);
    } else if s.audioEnabled {
      ReportRouted(s, report.value);
    } else if s.sadTimer {
      ReportAwaited(s, report.value);
    } else {
      ReportStored(s, report.value);
    }
  }

  lemma SoundModeFollows(s: State, portConnected: bool, auto: bool, stereo: StereoMode)
    requires Inv(s)
    ensures Follows(s, OnSetSoundMode(s, portConnected, auto, stereo), SetSoundMode(portConnected, auto, stereo))
  {
    if !ChangesSound(s, SetSoundMode(portConnected, auto, stereo)) {
      SoundIgnored(s, portConnected, auto, stereo);
    } else if auto {
      AutoSoundLink(s, stereo);
      AutoSoundServes(s, stereo);
    } else if stereo == Stereo {
      StereoSoundLink(s);
      StereoSoundServes(s);
    } else {
      OtherSoundLink(s, stereo);
      OtherSoundServes(s, stereo);
    }
  }

  lemma ServesFollow(s: State, e: Event)
    requires Inv(s) && (Serves(e) || e.AudioOutHotPlug?)
    ensures Follows(s, Next(s, e), e)
  {
    match e
    case EnablePort(enable, system, bitstream) => EnablePortFollows(s, enable, system, bitstream);
    case SadTimer =>
      ExpiryLink(s);
      ExpiryServes(s);
    case DescriptorReport(report) => ReportFollows(s, report);
    case SetSoundMode(portConnected, auto, stereo) => SoundModeFollows(s, portConnected, auto, stereo);
    case AudioOutHotPlug(arcPort, plugged) => PortHotPlugFollows(s, arcPort, plugged);
  }

  lemma NextFollows(s: State, e: Event)
    requires Inv(s)
    ensures Follows(s, Next(s, e), e)
  {
    EveryEventHasItsKind(e);
    if Looks(e) {
      LooksFollow(s, e);
    } else if Connects(e) {
      ConnectsFollow(s, e);
    } else if Drops(e) {
      DropsFollow(s, e);
    } else {
      ServesFollow(s, e);
    }
  }

  /** In every run each step changes each flag exactly when, and to what, the conditions of
      module ArcFlags say, and tells observers, port and device exactly that. */
  lemma FlagsFollowExactly(past: seq<Event>, e: Event)
    ensures Follows(After(INIT, past), After(INIT, past + [e]), e)
  {
    RunKeepsInv(INIT, past);
    AfterAppend(INIT, past, e);
    NextFollows(After(INIT, past), e);
  }
}
