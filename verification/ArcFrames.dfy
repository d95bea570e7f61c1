/** What each kind of ARC handler does and leaves alone: handlers that only look for the device,
    that may connect it, that may disconnect it, and that serve audio and descriptors. */
module ArcFrames {
  import opened PowerTypes
  import opened Arc

  // ---------------------------------------------------------------- what is followed

  predicate Alternates(notes: seq<bool>) {
    forall i :: 0 <= i < |notes| ==> notes[i] == (i % 2 == 0)
  }

  /** The observers know whether a device is connected, and were told each change once. */
  predicate InStep(connected: bool, notified: bool, notes: seq<bool>) {
    connected == notified && Alternates(notes) && notified == (|notes| % 2 == 1)
  }

  predicate ToldOnce(s: State) {
    InStep(s.connected, s.notified, s.world.notifications)
  }

  predicate RoutedHasDevice(s: State) {
    s.audioEnabled ==> s.devType != NoDevice
  }

  /** The list is empty when cleared, and what the port was given last when updated. */
  predicate ListTells(a: Archive, sad: Descriptors, sadList: seq<int>) {
    && (sad == SadUpdated ==> a.given != [] && a.given[|a.given| - 1].descriptors == sadList)
    && (sad == SadCleared ==> sadList == [] && a.kept == [])
  }

  predicate SameList(s: State, t: State) {
    t.sadList == s.sadList && t.archive.kept == s.archive.kept
  }

  predicate SameLink(s: State, t: State) {
    && t.connected == s.connected && t.notified == s.notified
    && t.world.notifications == s.world.notifications
    && t.archive.connection == s.archive.connection
  }

  // ---------------------------------------------------------------- runs

  lemma {:induction false} AfterAppend(s: State, events: seq<Event>, e: Event)
    ensures After(s, events + [e]) == Next(After(s, events), e)
    decreases |events|
  {
    if events == [] {
      assert events + [e] == [e] && [e][1..] == [];
      assert After(Next(s, e), []) == Next(s, e);
    } else {
      assert (events + [e])[1..] == events[1..] + [e];
      AfterAppend(Next(s, events[0]), events[1..], e);
    }
  }

  lemma {:induction false} AfterConcat(s: State, a: seq<Event>, b: seq<Event>)
    ensures After(s, a + b) == After(After(s, a), b)
    decreases |a|
  {
    if a == [] {
      assert a + b == b;
    } else {
      assert (a + b)[1..] == a[1..] + b;
      AfterConcat(Next(s, a[0]), a[1..], b);
    }
  }

  lemma AfterTwo(s: State, a: Event, b: Event)
    ensures After(s, [a, b]) == Next(Next(s, a), b)
  {
    assert [a, b][1..] == [b];
    assert After(Next(s, a), [b]) == After(Next(Next(s, a), b), [b][1..]);
  }

  /** Audio of an initiated ARC connection waits for the device's descriptors. */
  predicate Waiting(s: State) {
    && s.connected && s.devType == ArcDevice && s.routing == Initiated && s.sad == SadRequested
    && s.sadTimer && !s.audioEnabled && s.sadList == [] && !s.retrigger
  }

  /** An ARC connection begins and the user turns the port on. */
  const REQUEST: seq<Event> := [Initiation(Some(true), true), EnablePort(true, On, true)]

  lemma RequestWaits()
    ensures Waiting(After(INIT, REQUEST))
  {
    AfterTwo(INIT, Initiation(Some(true), true), EnablePort(true, On, true));
  }

  // ---------------------------------------------------------------- looking

  /** The handlers that only look for the device, and those that find nothing to do. */
  predicate Looks(e: Event) {
    match e
    case PowerTimer(_) => true
    case DetectTimer(_) => true
    case ReconnectTimer(_, _) => true
    case PortsInitialised(_, _, _) => true
    case SystemAudioMode(mode) => mode != ModeOff
    case DeviceStatus(present) => present
    case CecStatus(enabled) => enabled
    case PowerModeChanged(system, _) => system == On
    case HdmiInHotPlug(_, plugged) => plugged
    case GetConnectedPorts(portConnected) => portConnected
    case _ => false
  }

  predicate OnlyLooked(s: State, t: State) {
    && SameLink(s, t) && SameList(s, t) && t.archive == s.archive
    && t.world.command == s.world.command && t.world.asked == s.world.asked && t.world.taken == s.world.taken
    && t.devType == s.devType && t.audioEnabled == s.audioEnabled && t.routing == s.routing
    && t.sad == s.sad && t.retrigger == s.retrigger && t.sadTimer == s.sadTimer && t.detector == s.detector
  }

  lemma SendLooks(s: State, m: Message, p: Probe)
    ensures OnlyLooked(s, WithProbe(Send(s, m), p)) && OnlyLooked(s, Send(s, m))
  {
  }

  lemma AskAgainLooks(s: State)
    ensures OnlyLooked(s, AskAgain(s))
  {
    var t := if s.probe.powerRetries == 2 || s.probe.powerRetries == 4 then Send(s, SendPowerOn) else s;
    SendLooks(s, SendPowerOn, s.probe);
    SendLooks(t, AskPowerStatus, s.probe.(power := PowerRequested, powerRetries := s.probe.powerRetries + 1));
  }

  lemma DetectTimerLooks(s: State, subscribed: bool)
    ensures OnlyLooked(s, OnDetectTimer(s, subscribed))
  {
    SendLooks(s, SendPowerOn, s.probe.(confirmed := false, powerTimer := true));
  }

  lemma SystemAudioOnLooks(s: State, mode: AudioMode)
    requires mode != ModeOff
    ensures OnlyLooked(s, OnSystemAudioMode(s, mode))
  {
    SendLooks(s, AskPowerStatus, s.probe.(confirmed := true, power := PowerRequested));
  }

  lemma PowerTimerLooks(s: State, subscribed: bool)
    ensures OnlyLooked(s, OnPowerTimer(s, subscribed))
  {
    AskAgainLooks(s);
  }

  lemma SendBothLooks(s: State, m: Message, n: Message, p: Probe)
    ensures OnlyLooked(s, WithProbe(SendBoth(s, m, n), p))
  {
  }

  lemma ReconnectTimerLooks(s: State, cec: bool, subscribed: bool)
    ensures OnlyLooked(s, OnReconnectTimer(s, cec, subscribed))
  {
    var t := if cec then WithProbe(s, s.probe.(cec := true)) else s;
    SendBothLooks(t, SendPowerOn, AskPowerStatus, t.probe.(power := PowerRequested));
  }

  lemma PortsInitialisedLooks(s: State, present: bool, cec: bool, subscribed: bool)
    ensures OnlyLooked(s, OnPortsInitialised(s, present, cec, subscribed))
  {
    var t := LookAround(s, present, cec);
    SendBothLooks(t, AskAudioStatus, SendPowerOn, t.probe.(confirmed := false, powerTimer := true));
  }

  lemma DeviceFoundLooks(s: State)
    ensures OnlyLooked(s, OnDeviceFound(s))
  {
    SendBothLooks(s, AskAudioStatus, AskPowerStatus, s.probe.(detected := true, power := PowerRequested));
  }

  lemma LooksOnlyLook(s: State, e: Event)
    requires Looks(e)
    ensures OnlyLooked(s, Next(s, e))
  {
    match e
    case PowerTimer(_) => TimersLook(s, e);
    case DetectTimer(_) => TimersLook(s, e);
    case ReconnectTimer(_, _) => TimersLook(s, e);
    case PortsInitialised(_, _, _) => TimersLook(s, e);
    case _ => StatusLooks(s, e);
  }

  lemma TimersLook(s: State, e: Event)
    requires e.PowerTimer? || e.DetectTimer? || e.ReconnectTimer? || e.PortsInitialised?
    ensures OnlyLooked(s, Next(s, e))
  {
    match e
    case PowerTimer(subscribed) => PowerTimerLooks(s, subscribed);
    case DetectTimer(subscribed) => DetectTimerLooks(s, subscribed);
    case ReconnectTimer(cec, subscribed) => ReconnectTimerLooks(s, cec, subscribed);
    case PortsInitialised(present, cec, subscribed) => PortsInitialisedLooks(s, present, cec, subscribed);
  }

  lemma StatusLooks(s: State, e: Event)
    requires Looks(e) && !e.PowerTimer? && !e.DetectTimer? && !e.ReconnectTimer? && !e.PortsInitialised?
    ensures OnlyLooked(s, Next(s, e))
  {
    match e
    case SystemAudioMode(mode) => SystemAudioOnLooks(s, mode);
    case DeviceStatus(_) => DeviceFoundLooks(s);
    case CecStatus(_) =>
    case PowerModeChanged(_, _) =>
    case HdmiInHotPlug(_, _) =>
    case GetConnectedPorts(_) =>
  }

  // ---------------------------------------------------------------- connecting

  /** The handlers that may connect the device. */
  predicate Connects(e: Event) {
    e.Initiation? || e.ArcTimer? || e.DevicePowerStatus?
  }

  /** Whether they do. */
  predicate Begins(s: State, e: Event) {
    match e
    case Initiation(status, _) => !s.connected && status == Some(true) && s.routing != Initiated && s.probe.confirmed
    case ArcTimer(earc) => !s.connected && earc && s.routing != Initiated
    case DevicePowerStatus(power, earc) => !s.connected && earc && power == ReportOn
    case _ => false
  }

  predicate Connected(s: State, t: State, begins: bool) {
    && t.connected == (s.connected || begins)
    && t.archive.connection == (if begins then s.archive.connection + 1 else s.archive.connection)
    && t.archive.given == s.archive.given && SameList(s, t)
    && t.audioEnabled == s.audioEnabled && t.sadTimer == s.sadTimer
    && OnlyAsked(s, t)
    && (s.devType != NoDevice ==> t.devType != NoDevice)
    && (ToldOnce(s) ==> ToldOnce(t))
  }

  /** Descriptors that were missing may have been asked for; nothing else happened to them. */
  predicate OnlyAsked(s: State, t: State) {
    (t.sad == s.sad || (SadMissing(s) && t.sad == SadRequested)) && t.retrigger == s.retrigger
  }

  lemma ConnectedLater(s: State, t: State, u: State, begins: bool)
    requires Connected(s, t, false) && Connected(t, u, begins)
    requires t.sad != s.sad ==> u.sad == t.sad
    ensures Connected(s, u, begins)
  {
  }

  lemma PlugConnects(s: State, devType: DeviceType)
    requires !s.connected && devType != NoDevice
    ensures Connected(s, Plug(s, devType), true)
    ensures Plug(s, devType).detector == s.detector && Plug(s, devType).sad == s.sad
  {
  }

  lemma BeginConnects(s: State)
    ensures Connected(s, Begin(s), !s.connected)
    ensures Begin(s).detector == s.detector && Begin(s).sad == s.sad && Begin(s).retrigger == s.retrigger
  {
    if !s.connected {
      var t := s.(routing := Initiated);
      if t.devType == NoDevice {
        PlugConnects(WithType(t, ArcDevice), ArcDevice);
      } else {
        PlugConnects(t, t.devType);
      }
    }
  }

  lemma RequestConnects(s: State)
    requires SadMissing(s)
    ensures Connected(s, Request(s), false)
    ensures Request(s).detector == s.detector && Request(s).connected == s.connected
  {
  }

  lemma RequestThenBeginConnects(s: State)
    requires SadMissing(s)
    ensures Connected(s, Begin(Request(s)), !s.connected) && Begin(Request(s)).detector == s.detector
  {
    RequestConnects(s);
    BeginConnects(Request(s));
    ConnectedLater(s, Request(s), Begin(Request(s)), !s.connected);
  }

  lemma InitiationConnects(s: State, status: Option<bool>, bitstream: bool)
    ensures Connected(s, OnInitiation(s, status, bitstream), Begins(s, Initiation(status, bitstream)))
    ensures OnInitiation(s, status, bitstream).detector == s.detector
  {
    if status == Some(true) {
      if SadMissing(s) && bitstream {
        RequestThenBeginConnects(s);
      } else {
        BeginConnects(s);
      }
    }
  }

  lemma SettleConnects(s: State)
    ensures Connected(s, SettleForArc(s), false) && SettleForArc(s).detector == s.detector
  {
    SendLooks(s, AskInitiation, s.probe);
  }

  lemma DetectConnects(s: State, earc: bool)
    ensures Connected(s, Detect(s, earc), Begins(s, ArcTimer(earc)))
  {
    if s.routing != Initiated && !s.connected {
      if earc {
        PlugConnects(s, EarcDevice);
      } else {
        SettleConnects(s.(detector := s.detector.(tries := s.detector.tries + 1)));
      }
    }
  }

  lemma ArcTimerConnects(s: State, earc: bool)
    ensures Connected(s, OnArcTimer(s, earc), Begins(s, ArcTimer(earc)))
  {
    DetectConnects(s, earc);
  }

  lemma ConfirmLooks(s: State)
    ensures OnlyLooked(s, Confirm(s))
  {
  }

  lemma FindEarcConnects(s: State, earc: bool)
    ensures Connected(s, FindEarc(s, earc), !s.connected && earc)
    ensures FindEarc(s, earc).detector.tries == s.detector.tries
  {
    if !s.connected && earc {
      PlugConnects(s, EarcDevice);
    }
  }

  lemma DevicePowerStatusConnects(s: State, power: DeviceReport, earc: bool)
    ensures Connected(s, OnDevicePowerStatus(s, power, earc), Begins(s, DevicePowerStatus(power, earc)))
    ensures OnDevicePowerStatus(s, power, earc).detector.tries == s.detector.tries
  {
    if power == ReportOn {
      ConfirmLooks(s);
      FindEarcConnects(Confirm(s), earc);
    }
  }

  lemma ConnectsConnect(s: State, e: Event)
    requires Connects(e)
    ensures Connected(s, Next(s, e), Begins(s, e))
  {
    match e
    case Initiation(status, bitstream) => InitiationConnects(s, status, bitstream);
    case ArcTimer(earc) => ArcTimerConnects(s, earc);
    case DevicePowerStatus(power, earc) => DevicePowerStatusConnects(s, power, earc);
  }

  // ---------------------------------------------------------------- disconnecting

  /** The handlers that may disconnect the device. */
  predicate Drops(e: Event) {
    match e
    case Termination(_) => true
    case SystemAudioMode(mode) => mode == ModeOff
    case DeviceStatus(present) => !present
    case CecStatus(enabled) => !enabled
    case PowerModeChanged(system, _) => system != On
    case HdmiInHotPlug(_, plugged) => !plugged
    case GetConnectedPorts(portConnected) => !portConnected
    case _ => false
  }

  predicate Dropped(s: State, t: State, forgets: bool) {
    && (t.connected ==> s.connected) && t.archive.connection == s.archive.connection
    && t.archive.given == s.archive.given
    && (if forgets then t.sadList == [] && t.archive.kept == [] else SameList(s, t))
    && t.detector.tries == s.detector.tries
    && (RoutedHasDevice(s) ==> RoutedHasDevice(t))
    && (ToldOnce(s) ==> ToldOnce(t))
  }

  lemma UnplugTellsOnce(s: State)
    requires ToldOnce(s)
    ensures ToldOnce(Unplug(s)) && ToldOnce(UnplugQuietly(s))
  {
  }

  lemma UnplugDrops(s: State)
    ensures Dropped(s, Unplug(s), false) && !Unplug(s).connected
    ensures Unplug(s).sad == s.sad && Unplug(s).devType == s.devType && Unplug(s).audioEnabled == s.audioEnabled
  {
    if ToldOnce(s) {
      UnplugTellsOnce(s);
    }
  }

  lemma UnplugQuietlyDrops(s: State)
    ensures Dropped(s, UnplugQuietly(s), false) && UnplugQuietly(s).sad == s.sad
  {
    if ToldOnce(s) {
      UnplugTellsOnce(s);
    }
  }

  lemma ForgetDrops(s: State)
    requires ListTells(s.archive, s.sad, s.sadList)
    ensures Dropped(s, Forget(s), s.sad != SadUnknown)
  {
  }

  lemma RemoveDeviceDrops(s: State)
    ensures Dropped(s, RemoveDevice(s), false) && RemoveDevice(s).sad == s.sad
  {
    UnplugDrops(s);
  }

  lemma DeviceGoneDrops(s: State)
    requires ListTells(s.archive, s.sad, s.sadList)
    ensures Dropped(s, OnDeviceGone(s), s.sad != SadUnknown)
  {
    var t := WithProbe(s, s.probe.(detected := false));
    RemoveDeviceDrops(t);
    ForgetDrops(RemoveDevice(t));
  }

  lemma TerminationDrops(s: State, status: Option<bool>)
    requires ListTells(s.archive, s.sad, s.sadList)
    ensures Dropped(s, OnTermination(s, status), true)
  {
    var t := if s.sad != SadCleared then ClearSad(s) else s;
    assert Dropped(s, t, true);
    UnplugQuietlyDrops(EndRouting(t));
  }

  lemma SystemAudioOffDrops(s: State)
    ensures Dropped(s, OnSystemAudioMode(s, ModeOff), false)
  {
    UnplugQuietlyDrops(WithProbe(s, s.probe.(power := PowerUnknown)));
  }

  lemma CecOffDrops(s: State)
    ensures Dropped(s, OnCecStatus(s, false), false)
  {
    var t := WithProbe(s, s.probe.(cec := false));
    UnplugDrops(if t.audioEnabled then t else WithType(t, NoDevice));
  }

  lemma PowerModeDrops(s: State, system: PowerState, arcSupported: bool)
    ensures Dropped(s, OnPowerModeChanged(s, system, arcSupported), false)
  {
    UnplugDrops(EndRouting(s));
  }

  lemma HdmiInDrops(s: State, arcPort: bool)
    requires ListTells(s.archive, s.sad, s.sadList)
    ensures Dropped(s, OnHdmiInHotPlug(s, arcPort, false), arcPort)
  {
    UnplugDrops(s);
  }

  lemma GetConnectedPortsDrops(s: State)
    ensures Dropped(s, OnGetConnectedPorts(s, false), false)
  {
    UnplugDrops(EndRouting(s));
  }

  /** Whether a handler empties the descriptor list. */
  predicate Forgets(s: State, e: Event) {
    match e
    case Termination(_) => true
    case HdmiInHotPlug(arcPort, plugged) => arcPort && !plugged
    case DeviceStatus(present) => !present && s.sad != SadUnknown
    case SetSoundMode(portConnected, auto, stereo) =>
      portConnected && !auto && stereo == Stereo && s.devType == ArcDevice && s.connected
    case _ => false
  }

  lemma DropsDrop(s: State, e: Event)
    requires Drops(e) && ListTells(s.archive, s.sad, s.sadList)
    ensures Dropped(s, Next(s, e), Forgets(s, e))
  {
    match e
    case Termination(status) => TerminationDrops(s, status);
    case SystemAudioMode(_) => SystemAudioOffDrops(s);
    case DeviceStatus(_) => DeviceGoneDrops(s);
    case CecStatus(_) => CecOffDrops(s);
    case PowerModeChanged(system, arcSupported) => PowerModeDrops(s, system, arcSupported);
    case HdmiInHotPlug(arcPort, _) => HdmiInDrops(s, arcPort);
    case GetConnectedPorts(_) => GetConnectedPortsDrops(s);
  }

  // ---------------------------------------------------------------- serving

  /** The handlers that serve audio and descriptors. */
  predicate Serves(e: Event) {
    e.EnablePort? || e.SadTimer? || e.DescriptorReport? || e.SetSoundMode?
  }

  lemma EnablePortServes(s: State, enable: bool, system: PowerState, bitstream: bool)
    ensures var t := OnEnablePort(s, enable, system, bitstream);
            SameLink(s, t) && t.detector == s.detector && SameList(s, t)
  {
  }

  lemma SadTimerServes(s: State)
    ensures var t := OnSadTimer(s);
            SameLink(s, t) && t.detector == s.detector && SameList(s, t) && t.devType == s.devType
  {
  }

  lemma DeliverServes(s: State)
    ensures var t := Deliver(s);
            SameLink(s, t) && t.detector == s.detector && SameList(s, t) && t.devType == s.devType
  {
  }

  lemma DescriptorReportServes(s: State, report: Option<seq<int>>)
    ensures var t := OnDescriptorReport(s, report);
            SameLink(s, t) && t.detector == s.detector && t.devType == s.devType
  {
    if report.Some? {
      DeliverServes(Keep(TakeAny(s), report.value));
    }
  }

  lemma SetSoundModeServes(s: State, portConnected: bool, auto: bool, stereo: StereoMode)
    requires ListTells(s.archive, s.sad, s.sadList)
    ensures var t := OnSetSoundMode(s, portConnected, auto, stereo);
            && SameLink(s, t) && t.detector == s.detector && t.devType == s.devType && t.archive.given == s.archive.given
            && t.audioEnabled == s.audioEnabled && t.sadTimer == s.sadTimer
            && (if Forgets(s, SetSoundMode(portConnected, auto, stereo)) then t.sadList == [] && t.archive.kept == []
                else SameList(s, t) && OnlyAsked(s, t))
  {
  }

  lemma ServesLeaveLink(s: State, e: Event)
    requires Serves(e) && ListTells(s.archive, s.sad, s.sadList)
    ensures SameLink(s, Next(s, e)) && Next(s, e).detector == s.detector
  {
    match e
    case EnablePort(enable, system, bitstream) => EnablePortServes(s, enable, system, bitstream);
    case SadTimer => SadTimerServes(s);
    case DescriptorReport(report) => DescriptorReportServes(s, report);
    case SetSoundMode(portConnected, auto, stereo) => SetSoundModeServes(s, portConnected, auto, stereo);
  }

  /** Every entry point is of one of these kinds, or the port's own hot-plug event. */
  lemma EveryEventHasItsKind(e: Event)
    ensures Looks(e) || Connects(e) || Drops(e) || Serves(e) || e.AudioOutHotPlug?
  {
  }
}
