/** What every run of the ARC machine keeps. */
module ArcInvariants {
  import opened PowerTypes
  import opened Arc
  import opened ArcFrames

  // ---------------------------------------------------------------- the invariant

  function LastNotified(w: World): bool {
    w.notifications != [] && w.notifications[|w.notifications| - 1]
  }

  /** The flags say what was last done; each report taken answers a request of its own, and so
      will an awaited one. */
  predicate Tells(w: World, notified: bool, audioEnabled: bool, sad: Descriptors) {
    && notified == LastNotified(w) && audioEnabled == w.command.on
    && w.taken + (if sad == SadRequested then 1 else 0) <= w.asked
  }

  predicate Ordered(connected: bool, devType: DeviceType, sad: Descriptors, retrigger: bool) {
    (connected ==> devType != NoDevice) && (retrigger ==> sad == SadRequested)
  }

  predicate Inv(s: State) {
    && Tells(s.world, s.notified, s.audioEnabled, s.sad)
    && ListTells(s.archive, s.sad, s.sadList)
    && Ordered(s.connected, s.devType, s.sad, s.retrigger)
  }

  // ---------------------------------------------------------------- fragments keep it

  lemma SendKeepsInv(s: State, m: Message)
    requires Inv(s)
    ensures Inv(Send(s, m))
  {
  }

  lemma RouteKeepsInv(s: State, devType: DeviceType)
    requires Inv(s)
    ensures Inv(Route(s, devType))
  {
  }

  lemma UnrouteKeepsInv(s: State, devType: DeviceType)
    requires Inv(s)
    ensures Inv(Unroute(s, devType))
  {
  }

  lemma RequestKeepsInv(s: State)
    requires Inv(s)
    ensures Inv(Request(s))
  {
  }

  lemma GiveKeepsInv(s: State)
    requires Inv(s) && !s.retrigger
    ensures Inv(GiveToPort(s))
  {
  }

  lemma ClearKeepsInv(s: State)
    requires Inv(s)
    ensures Inv(ClearSad(s))
  {
  }

  lemma NotifyKeepsInv(s: State, connected: bool)
    requires Inv(s)
    ensures Inv(Notify(s, connected))
  {
  }

  lemma UnplugQuietlyKeepsInv(s: State)
    requires Inv(s)
    ensures Inv(UnplugQuietly(s)) && !UnplugQuietly(s).connected
  {
  }

  lemma EndRoutingKeepsInv(s: State)
    requires Inv(s)
    ensures Inv(EndRouting(s))
  {
  }

  lemma PlugKeepsInv(s: State, devType: DeviceType)
    requires Inv(s) && devType != NoDevice
    ensures Inv(Plug(s, devType))
  {
  }

  lemma TakeKeepsInv(s: State, ds: seq<int>)
    requires Inv(s) && s.sad == SadRequested
    ensures Inv(TakeAny(s)) && Inv(Keep(TakeAny(s), ds))
  {
  }

  // ---------------------------------------------------------------- entry points keep it

  lemma EnablePortKeepsInv(s: State, enable: bool, system: PowerState, bitstream: bool)
    requires Inv(s)
    ensures Inv(OnEnablePort(s, enable, system, bitstream))
  {
    if !enable {
      UnrouteKeepsInv(s, s.devType);
    } else if s.devType == EarcDevice {
      RouteKeepsInv(s, EarcDevice);
    } else {
      SendKeepsInv(s, SendPowerOn);
      var t := Send(s, SendPowerOn);
      RouteKeepsInv(t, ArcDevice);
      if t.sad == SadReceived {
        GiveKeepsInv(t);
        RouteKeepsInv(GiveToPort(t), ArcDevice);
      }
    }
  }

  lemma SadTimerKeepsInv(s: State)
    requires Inv(s)
    ensures Inv(OnSadTimer(s))
  {
  }

  lemma SettleKeepsInv(s: State)
    requires Inv(s)
    ensures Inv(SettleForArc(s))
  {
    SendKeepsInv(s, AskInitiation);
  }

  lemma DetectKeepsInv(s: State, earc: bool)
    requires Inv(s)
    ensures Inv(Detect(s, earc))
  {
    if earc {
      PlugKeepsInv(s, EarcDevice);
    } else {
      SettleKeepsInv(s.(detector := s.detector.(tries := s.detector.tries + 1)));
    }
  }

  lemma ArcTimerKeepsInv(s: State, earc: bool)
    requires Inv(s)
    ensures Inv(OnArcTimer(s, earc))
  {
    DetectKeepsInv(s, earc);
  }

  lemma BeginKeepsInv(s: State)
    requires Inv(s)
    ensures Inv(Begin(s))
  {
    var t := s.(routing := Initiated);
    if t.devType == NoDevice {
      PlugKeepsInv(WithType(t, ArcDevice), ArcDevice);
    } else {
      PlugKeepsInv(t, t.devType);
    }
  }

  lemma InitiationKeepsInv(s: State, status: Option<bool>, bitstream: bool)
    requires Inv(s)
    ensures Inv(OnInitiation(s, status, bitstream))
  {
    RequestKeepsInv(s);
    BeginKeepsInv(if SadMissing(s) && bitstream then Request(s) else s);
  }

  lemma TerminationKeepsInv(s: State, status: Option<bool>)
    requires Inv(s)
    ensures Inv(OnTermination(s, status))
  {
    ClearKeepsInv(s);
    var t := if s.sad != SadCleared then ClearSad(s) else s;
    EndRoutingKeepsInv(t);
    UnplugQuietlyKeepsInv(EndRouting(t));
  }

  lemma DescriptorReportKeepsInv(s: State, report: Option<seq<int>>)
    requires Inv(s)
    ensures Inv(OnDescriptorReport(s, report))
  {
    if report.Some? && s.sad == SadRequested {
      TakeKeepsInv(s, report.value);
      var u := Keep(TakeAny(s), report.value).(sadTimer := false);
      GiveKeepsInv(u);
      RouteKeepsInv(GiveToPort(u), ArcDevice);
    }
  }

  lemma SystemAudioModeKeepsInv(s: State, mode: AudioMode)
    requires Inv(s)
    ensures Inv(OnSystemAudioMode(s, mode))
  {
  }

  lemma DevicePowerStatusKeepsInv(s: State, power: DeviceReport, earc: bool)
    requires Inv(s)
    ensures Inv(OnDevicePowerStatus(s, power, earc))
  {
    match power
    case ReportOn =>
      PlugKeepsInv(Confirm(s), EarcDevice);
    case ReportStarting => SendKeepsInv(s, AskPowerStatus);
    case _ =>
  }

  lemma CecStatusKeepsInv(s: State, enabled: bool)
    requires Inv(s)
    ensures Inv(OnCecStatus(s, enabled))
  {
  }

  lemma RemoveDeviceKeepsInv(s: State)
    requires Inv(s)
    ensures Inv(RemoveDevice(s)) && !RemoveDevice(s).connected
  {
  }

  lemma ForgetKeepsInv(s: State)
    requires Inv(s) && !s.connected
    ensures Inv(Forget(s))
  {
    ClearKeepsInv(s);
  }

  lemma DeviceStatusKeepsInv(s: State, present: bool)
    requires Inv(s)
    ensures Inv(OnDeviceStatus(s, present))
  {
    if present {
      DeviceFoundLooks(s);
    } else {
      var t := WithProbe(s, s.probe.(detected := false));
      RemoveDeviceKeepsInv(t);
      ForgetKeepsInv(RemoveDevice(t));
    }
  }

  lemma PowerModeKeepsInv(s: State, system: PowerState, arcSupported: bool)
    requires Inv(s)
    ensures Inv(OnPowerModeChanged(s, system, arcSupported))
  {
  }

  lemma HdmiInHotPlugKeepsInv(s: State, arcPort: bool, plugged: bool)
    requires Inv(s)
    ensures Inv(OnHdmiInHotPlug(s, arcPort, plugged))
  {
  }

  lemma SetSoundModeKeepsInv(s: State, portConnected: bool, auto: bool, stereo: StereoMode)
    requires Inv(s)
    ensures Inv(OnSetSoundMode(s, portConnected, auto, stereo))
  {
  }

  lemma GetConnectedPortsKeepsInv(s: State, portConnected: bool)
    requires Inv(s)
    ensures Inv(OnGetConnectedPorts(s, portConnected))
  {
  }

  lemma LookedKeepsInv(s: State, t: State)
    requires Inv(s) && OnlyLooked(s, t)
    ensures Inv(t)
  {
  }

  lemma ServesKeepInv(s: State, e: Event)
    requires Inv(s) && Serves(e)
    ensures Inv(Next(s, e))
  {
    match e
    case EnablePort(enable, system, bitstream) => EnablePortKeepsInv(s, enable, system, bitstream);
    case SadTimer => SadTimerKeepsInv(s);
    case DescriptorReport(report) => DescriptorReportKeepsInv(s, report);
    case SetSoundMode(portConnected, auto, stereo) => SetSoundModeKeepsInv(s, portConnected, auto, stereo);
  }

  lemma ConnectsKeepInv(s: State, e: Event)
    requires Inv(s) && Connects(e)
    ensures Inv(Next(s, e))
  {
    match e
    case Initiation(status, bitstream) => InitiationKeepsInv(s, status, bitstream);
    case ArcTimer(earc) => ArcTimerKeepsInv(s, earc);
    case DevicePowerStatus(power, earc) => DevicePowerStatusKeepsInv(s, power, earc);
  }

  /** No entry point, in any state, breaks what the flags mean. */
  lemma NextKeepsInv(s: State, e: Event)
    requires Inv(s)
    ensures Inv(Next(s, e))
  {
    EveryEventHasItsKind(e);
    if Looks(e) {
      LooksOnlyLook(s, e);
      LookedKeepsInv(s, Next(s, e));
    } else if Serves(e) {
      ServesKeepInv(s, e);
    } else if Connects(e) {
      ConnectsKeepInv(s, e);
    } else {
      DropsKeepInv(s, e);
    }
  }

  lemma DropsKeepInv(s: State, e: Event)
    requires Inv(s) && (Drops(e) || e.AudioOutHotPlug?)
    ensures Inv(Next(s, e))
  {
    match e
    case Termination(status) => TerminationKeepsInv(s, status);
    case SystemAudioMode(mode) => SystemAudioModeKeepsInv(s, mode);
    case DeviceStatus(present) => DeviceStatusKeepsInv(s, present);
    case CecStatus(enabled) => CecStatusKeepsInv(s, enabled);
    case PowerModeChanged(system, arcSupported) => PowerModeKeepsInv(s, system, arcSupported);
    case HdmiInHotPlug(arcPort, plugged) => HdmiInHotPlugKeepsInv(s, arcPort, plugged);
    case AudioOutHotPlug(arcPort, plugged) => NotifyKeepsInv(s, plugged);
    case GetConnectedPorts(portConnected) => GetConnectedPortsKeepsInv(s, portConnected);
  }

  lemma {:induction false} RunKeepsInv(s: State, events: seq<Event>)
    requires Inv(s)
    ensures Inv(After(s, events))
    decreases |events|
  {
    if events != [] {
      NextKeepsInv(s, events[0]);
      RunKeepsInv(Next(s, events[0]), events[1..]);
    }
  }

  /** In every run: the notified flag is the polarity of the last notification and the routing
      flag that of the last routing command; a connected device has a type; an outstanding
      retrigger means that descriptors are requested, so never that they were received; the
      list is empty when cleared, and what the port was given last when updated; and no report
      is taken that was not asked for. */
  lemma FlagsMeanWhatTheySay(events: seq<Event>)
    ensures var s := After(INIT, events);
            && s.notified == LastNotified(s.world) && s.audioEnabled == s.world.command.on
            && (s.connected ==> s.devType != NoDevice)
            && (s.retrigger ==> s.sad == SadRequested) && (s.sad == SadReceived ==> !s.retrigger)
            && (s.sad == SadCleared ==> s.sadList == [])
            && (s.sad == SadUpdated ==> s.archive.given != [] && s.archive.given[|s.archive.given| - 1].descriptors == s.sadList)
            && s.world.taken <= s.world.asked
  {
    RunKeepsInv(INIT, events);
  }
}
