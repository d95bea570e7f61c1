/** The HDMI ARC/eARC part of DisplaySettings as a machine on values: one step per entry point. */
module Arc {
  import opened PowerTypes

  datatype DeviceType = NoDevice | ArcDevice | EarcDevice
  datatype Routing = Terminated | InitiationRequested | Initiated
  /** Where the plugin stands with the device's short audio descriptors (SAD). */
  datatype Descriptors = SadUnknown | SadRequested | SadReceived | SadUpdated | SadCleared
  datatype DevicePower = PowerUnknown | PowerRequested | PowerStandby | PowerOn
  datatype Message = SendPowerOn | AskPowerStatus | AskDescriptors | AskAudioStatus | AskInitiation

  /** A non-empty descriptor report, and the connection during or after which it was taken. */
  datatype Report = Report(connection: nat, descriptors: seq<int>)

  /** What the port was given: the descriptors, and the reports they are of. */
  datatype Delivery = Delivery(descriptors: seq<int>, reports: seq<Report>)

  /** A routing command to the port, for a type of device. */
  datatype Command = Command(devType: DeviceType, on: bool)

  /** What the outside has seen: the notifications of HDMI_ARC0 (connected or not), the last
      routing command to its port, the messages queued for the device and how many of them ask for
      descriptors, and the number of descriptor reports taken. */
  datatype World = World(notifications: seq<bool>, command: Command, sent: seq<Message>, asked: nat, taken: nat)

  /** History of the descriptors: the number of connections begun, the reports taken since the
      list was last emptied, and what the port was given in turn. */
  datatype Archive = Archive(connection: nat, kept: seq<Report>, given: seq<Delivery>)

  /** The eARC detection timer and its count of expiries. */
  datatype Detector = Detector(armed: bool, tries: nat)

  /** What is known of the device, whether it confirmed being on, and the timer that asks. */
  datatype Probe = Probe(
    detected: bool, power: DevicePower, confirmed: bool, powerTimer: bool, powerRetries: nat, cec: bool)

  datatype State = State(
    connected: bool, audioEnabled: bool, notified: bool, devType: DeviceType, routing: Routing,
    sad: Descriptors, sadList: seq<int>, retrigger: bool, sadTimer: bool,
    detector: Detector, probe: Probe, world: World,
    archive: Archive)

  const INIT: State := State(
    false, false, false, NoDevice, Terminated, SadUnknown, [], false, false,
    Detector(false, 0), Probe(false, PowerUnknown, true, false, 0, false),
    World([], Command(NoDevice, false), [], 0, 0), Archive(0, [], []))

  const DETECTION_TRIES: nat := 3

  datatype AudioMode = ModeOn | ModeOff | ModeOther
  datatype DeviceReport = ReportOn | ReportStandby | ReportStarting | ReportOther
  datatype StereoMode = Mono | Stereo | Surround | PassThru | DolbyDigital | DolbyDigitalPlus

  /** Entry points with the answers the platform gives during them: `earc`, whether the device
      supports eARC; `bitstream`, whether the port is in pass-through or auto mode; an optional
      value is `None` where the payload lacks the field. */
  datatype Event =
    | EnablePort(enable: bool, system: PowerState, bitstream: bool)
    | SadTimer
    | ArcTimer(earc: bool)
    | PowerTimer(subscribed: bool)
    | DetectTimer(subscribed: bool)
    | ReconnectTimer(cec: bool, subscribed: bool)
    | PortsInitialised(present: bool, cec: bool, subscribed: bool)
    | Initiation(status: Option<bool>, bitstream: bool)
    | Termination(status: Option<bool>)
    | DescriptorReport(report: Option<seq<int>>)
    | SystemAudioMode(mode: AudioMode)
    | DeviceStatus(present: bool)
    | DevicePowerStatus(power: DeviceReport, earc: bool)
    | CecStatus(enabled: bool)
    | PowerModeChanged(system: PowerState, arcSupported: bool)
    | HdmiInHotPlug(arcPort: bool, plugged: bool)
    | AudioOutHotPlug(arcPort: bool, plugged: bool)
    | SetSoundMode(portConnected: bool, auto: bool, stereo: StereoMode)
    | GetConnectedPorts(portConnected: bool)

  // ---------------------------------------------------------------- shared fragments

  function Send(s: State, m: Message): State {
    s.(world := s.world.(sent := s.world.sent + [m]))
  }

  function SendBoth(s: State, m: Message, n: Message): State {
    Send(Send(s, m), n)
  }

  function Route(s: State, devType: DeviceType): State {
    s.(audioEnabled := true, world := s.world.(command := Command(devType, true)))
  }

  function Unroute(s: State, devType: DeviceType): State {
    s.(audioEnabled := false, world := s.world.(command := Command(devType, false)))
  }

  function Request(s: State): State {
    var t := Send(s, AskDescriptors);
    t.(sad := SadRequested, world := t.world.(asked := t.world.asked + 1))
  }

  function GiveToPort(s: State): State {
    s.(sad := SadUpdated, archive := s.archive.(given := s.archive.given + [Delivery(s.sadList, s.archive.kept)]))
  }

  /** A report is taken; an empty one adds nothing to the list. */
  function TakeAny(s: State): State {
    s.(sad := SadReceived, retrigger := false, world := s.world.(taken := s.world.taken + 1))
  }

  function Keep(s: State, report: seq<int>): State {
    s.(sadList := s.sadList + report,
       archive := s.archive.(kept := s.archive.kept + [Report(s.archive.connection, report)]))
  }

  function ClearSad(s: State): State {
    s.(sad := SadCleared, sadList := [], retrigger := false, archive := s.archive.(kept := []))
  }

  function Notify(s: State, connected: bool): State {
    s.(notified := connected, world := s.world.(notifications := s.world.notifications + [connected]))
  }

  function WithProbe(s: State, p: Probe): State {
    s.(probe := p)
  }

  /** Most disconnects notify unconditionally. */
  function Unplug(s: State): State {
    if s.connected then WithProbe(Notify(s.(connected := false), false), s.probe.(power := PowerUnknown)) else s
  }

  /** Two of them only if the connection was notified. */
  function UnplugQuietly(s: State): State {
    if !s.connected then s
    else if s.notified then Notify(s.(connected := false), false) else s.(connected := false)
  }

  function Plug(s: State, devType: DeviceType): State {
    var t := s.(connected := true, devType := devType, archive := s.archive.(connection := s.archive.connection + 1));
    if s.notified then t else Notify(t, true)
  }

  function WithType(s: State, devType: DeviceType): State {
    s.(devType := devType)
  }

  function EndRouting(s: State): State {
    s.(routing := Terminated, retrigger := false)
  }

  predicate SadMissing(s: State) {
    s.sad == SadCleared || s.sad == SadUnknown
  }

  // ---------------------------------------------------------------- entry points

  /** An ARC device: in pass-through or auto mode audio waits for the descriptors. */
  function RouteArc(s: State, bitstream: bool): State {
    if !bitstream || s.sad == SadUpdated then Route(s, ArcDevice)
    else if s.sad == SadReceived then Route(GiveToPort(s), ArcDevice)
    else if s.sad == SadRequested then s.(sadTimer := true)
    else s
  }

  function OnEnablePort(s: State, enable: bool, system: PowerState, bitstream: bool): State {
    if enable then
      if system == Standby || !s.connected || s.audioEnabled || s.devType == NoDevice then s
      else if s.devType == EarcDevice then Route(s, EarcDevice)
      else RouteArc(Send(s, SendPowerOn), bitstream)
    else if !s.audioEnabled || s.devType == NoDevice then s
    else if s.connected then Unroute(s, s.devType)
    else WithType(Unroute(s, s.devType), NoDevice)
  }

  /** The timer ran out for a device whose audio waits: received descriptors go to the port,
      missing ones are asked for once more, and after that audio does without. The port is told
      that the device is an ARC one, whatever it is. */
  function StopWaiting(s: State): State {
    if s.sad == SadReceived then
      var t := GiveToPort(s);
      if t.retrigger then t else Route(t, ArcDevice)
    else if !s.retrigger then Request(s).(retrigger := true, sadTimer := true)
    else Route(s.(retrigger := false), ArcDevice)
  }

  function OnSadTimer(s: State): State {
    var t := s.(sadTimer := false);
    if t.audioEnabled || !t.connected then t else StopWaiting(t)
  }

  /** The device turned out to support ARC only. */
  function SettleForArc(s: State): State {
    if s.routing == Terminated && s.probe.cec then
      Send(s, AskInitiation).(devType := ArcDevice, routing := InitiationRequested)
    else s.(devType := ArcDevice)
  }

  function Detect(s: State, earc: bool): State {
    if s.routing == Initiated || s.connected then s
    else if earc then Plug(s, EarcDevice)
    else
      var t := s.(detector := s.detector.(tries := s.detector.tries + 1));
      if t.detector.tries >= DETECTION_TRIES then SettleForArc(t) else t
  }

  function StopDetection(s: State): State {
    s.(detector := Detector(false, 0))
  }

  function OnArcTimer(s: State, earc: bool): State {
    var t := Detect(s, earc);
    if t.detector.armed && (t.detector.tries >= DETECTION_TRIES || t.routing == Initiated || t.devType != NoDevice) then
      StopDetection(t)
    else t
  }

  function AskAgain(s: State): State {
    var t := if s.probe.powerRetries == 2 || s.probe.powerRetries == 4 then Send(s, SendPowerOn) else s;
    WithProbe(Send(t, AskPowerStatus), s.probe.(power := PowerRequested, powerRetries := s.probe.powerRetries + 1))
  }

  function GiveUp(s: State): State {
    WithProbe(s, s.probe.(confirmed := true, powerRetries := 0, powerTimer := false))
  }

  function OnPowerTimer(s: State, subscribed: bool): State {
    var t := if subscribed && s.probe.detected && s.probe.power != PowerOn then AskAgain(s) else s;
    if t.probe.powerRetries >= 5 && t.probe.powerTimer then GiveUp(t) else t
  }

  function PowerOnDevice(s: State): State {
    WithProbe(Send(s, SendPowerOn), s.probe.(confirmed := false, powerTimer := true))
  }

  function OnDetectTimer(s: State, subscribed: bool): State {
    if subscribed && s.probe.detected then PowerOnDevice(s) else s
  }

  function Greet(s: State): State {
    WithProbe(SendBoth(s, SendPowerOn, AskPowerStatus), s.probe.(power := PowerRequested))
  }

  function OnReconnectTimer(s: State, cec: bool, subscribed: bool): State {
    var t := if cec then WithProbe(s, s.probe.(cec := true)) else s;
    if subscribed then Greet(t) else t
  }

  function Welcome(s: State): State {
    WithProbe(SendBoth(s, AskAudioStatus, SendPowerOn), s.probe.(confirmed := false, powerTimer := true))
  }

  function LookAround(s: State, present: bool, cec: bool): State {
    WithProbe(s, s.probe.(detected := present, cec := cec, confirmed := true))
  }

  function OnPortsInitialised(s: State, present: bool, cec: bool, subscribed: bool): State {
    var t := LookAround(s, present, cec);
    if subscribed && present then Welcome(t) else t
  }

  function Begin(s: State): State {
    var t := s.(routing := Initiated);
    var u := if t.devType == NoDevice then WithType(t, ArcDevice) else t;
    if u.connected then u else Plug(u, u.devType)
  }

  function OnInitiation(s: State, status: Option<bool>, bitstream: bool): State {
    if status.None? || s.routing == Initiated || !s.probe.confirmed then s
    else if !status.value then s.(routing := Terminated)
    else Begin(if SadMissing(s) && bitstream then Request(s) else s)
  }

  function OnTermination(s: State, status: Option<bool>): State {
    var t := if s.sad != SadCleared then ClearSad(s) else s;
    if t.routing == Terminated || status.None? then t
    else
      var u := EndRouting(t);
      if status.value then UnplugQuietly(u) else u
  }

  /** Descriptors that come while audio is routed, or awaited by the timer, go to the port. */
  function Deliver(s: State): State {
    var t := s.(sadTimer := false);
    if t.audioEnabled then GiveToPort(t)
    else if s.sadTimer then Route(GiveToPort(t), ArcDevice)
    else t
  }

  function OnDescriptorReport(s: State, report: Option<seq<int>>): State {
    if report.None? || s.sad != SadRequested then s
    else
      var t := TakeAny(s);
      if report.value == [] then t
      else if t.routing != Initiated then Keep(t, report.value)
      else Deliver(Keep(t, report.value))
  }

  function SystemAudioOn(s: State): State {
    WithProbe(Send(s, AskPowerStatus), s.probe.(confirmed := true, power := PowerRequested))
  }

  function SystemAudioOff(s: State): State {
    var t := WithProbe(s, s.probe.(power := PowerUnknown));
    if t.connected then EndRouting(UnplugQuietly(t)) else t
  }

  function OnSystemAudioMode(s: State, mode: AudioMode): State {
    match mode
    case ModeOn => SystemAudioOn(s)
    case ModeOff => SystemAudioOff(s)
    case ModeOther => s
  }

  function RemoveDevice(s: State): State {
    if s.connected then EndRouting(Unplug(s)) else s
  }

  function OnDeviceFound(s: State): State {
    WithProbe(SendBoth(s, AskAudioStatus, AskPowerStatus), s.probe.(detected := true, power := PowerRequested))
  }

  function Forget(s: State): State {
    var t := if SadMissing(s) then s else ClearSad(s);
    if t.audioEnabled then t else WithType(t, NoDevice)
  }

  function OnDeviceGone(s: State): State {
    Forget(RemoveDevice(WithProbe(s, s.probe.(detected := false))))
  }

  function OnDeviceStatus(s: State, present: bool): State {
    if present then OnDeviceFound(s) else OnDeviceGone(s)
  }

  function Confirm(s: State): State {
    var t := if s.probe.powerTimer then WithProbe(s, s.probe.(powerRetries := 0, powerTimer := false)) else s;
    WithProbe(t, t.probe.(power := PowerOn, confirmed := true))
  }

  function FindEarc(s: State, earc: bool): State {
    if s.connected then s else if earc then Plug(s, EarcDevice) else s.(detector := s.detector.(armed := true))
  }

  function OnDevicePowerStatus(s: State, power: DeviceReport, earc: bool): State {
    match power
    case ReportOn => FindEarc(Confirm(s), earc)
    case ReportStandby => WithProbe(s, s.probe.(power := PowerStandby))
    case ReportStarting => WithProbe(Send(s, AskPowerStatus), s.probe.(power := PowerRequested))
    case ReportOther => s
  }

  function CecOff(s: State): State {
    var t := WithProbe(s, s.probe.(cec := false));
    Unplug(if t.audioEnabled then t else WithType(t, NoDevice))
  }

  function OnCecStatus(s: State, enabled: bool): State {
    if enabled then WithProbe(s, s.probe.(cec := true))
    else CecOff(s)
  }

  function StopTimers(s: State): State {
    s.(sadTimer := false, detector := s.detector.(armed := false), probe := s.probe.(powerTimer := false))
  }

  function Silence(s: State): State {
    WithType(if s.audioEnabled then Unroute(s, ArcDevice) else s, NoDevice)
  }

  function OnPowerModeChanged(s: State, system: PowerState, arcSupported: bool): State {
    if system == On || !arcSupported then s else StopTimers(Silence(Unplug(EndRouting(s))))
  }

  function OnHdmiInHotPlug(s: State, arcPort: bool, plugged: bool): State {
    if !arcPort || plugged then s
    else
      var t := EndRouting(Unplug(s));
      if t.sad != SadCleared then ClearSad(t) else t
  }

  function OnAudioOutHotPlug(s: State, arcPort: bool, plugged: bool): State {
    if arcPort then Notify(s, plugged) else s
  }

  function OnSetSoundMode(s: State, portConnected: bool, auto: bool, stereo: StereoMode): State {
    if !portConnected || s.devType != ArcDevice || !s.connected then s
    else if !auto && stereo == Surround then s
    else if !auto && stereo == Stereo then
      if s.sad != SadCleared then ClearSad(s) else s
    else if SadMissing(s) then Request(s)
    else s
  }

  function ResetConnection(s: State): State {
    Send(Unplug(EndRouting(s)).(devType := NoDevice, sad := SadUnknown), SendPowerOn)
  }

  function OnGetConnectedPorts(s: State, portConnected: bool): State {
    if portConnected || !s.connected || s.audioEnabled then s else ResetConnection(s)
  }

  function Next(s: State, e: Event): State {
    match e
    case EnablePort(enable, system, bitstream) => OnEnablePort(s, enable, system, bitstream)
    case SadTimer => OnSadTimer(s)
    case ArcTimer(earc) => OnArcTimer(s, earc)
    case PowerTimer(subscribed) => OnPowerTimer(s, subscribed)
    case DetectTimer(subscribed) => OnDetectTimer(s, subscribed)
    case ReconnectTimer(cec, subscribed) => OnReconnectTimer(s, cec, subscribed)
    case PortsInitialised(present, cec, subscribed) => OnPortsInitialised(s, present, cec, subscribed)
    case Initiation(status, bitstream) => OnInitiation(s, status, bitstream)
    case Termination(status) => OnTermination(s, status)
    case DescriptorReport(report) => OnDescriptorReport(s, report)
    case SystemAudioMode(mode) => OnSystemAudioMode(s, mode)
    case DeviceStatus(present) => OnDeviceStatus(s, present)
    case DevicePowerStatus(power, earc) => OnDevicePowerStatus(s, power, earc)
    case CecStatus(enabled) => OnCecStatus(s, enabled)
    case PowerModeChanged(system, arcSupported) => OnPowerModeChanged(s, system, arcSupported)
    case HdmiInHotPlug(arcPort, plugged) => OnHdmiInHotPlug(s, arcPort, plugged)
    case AudioOutHotPlug(arcPort, plugged) => OnAudioOutHotPlug(s, arcPort, plugged)
    case SetSoundMode(portConnected, auto, stereo) => OnSetSoundMode(s, portConnected, auto, stereo)
    case GetConnectedPorts(portConnected) => OnGetConnectedPorts(s, portConnected)
  }

  function After(s: State, events: seq<Event>): State
    decreases |events|
  {
    if events == [] then s else After(Next(s, events[0]), events[1..])
  }
}
