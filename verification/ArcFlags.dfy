/** Each ARC flag on its own: which of the nineteen handlers change it, under which condition, and
    to what. That the handlers, which change several flags each, agree with all of these is proved
    in ArcHandlers.dfy. */
module ArcFlags {
  import opened PowerTypes
  import opened Arc

  // ---------------------------------------------------------------- conditions

  /** An ARC initiation that is taken note of. */
  predicate Heeds(s: State, status: Option<bool>) {
    status.Some? && s.routing != Initiated && s.probe.confirmed
  }

  predicate LeavesOn(e: Event) {
    e.PowerModeChanged? && e.system != On && e.arcSupported
  }

  predicate ArcPortUnplugged(e: Event) {
    e.HdmiInHotPlug? && e.arcPort && !e.plugged
  }

  /** A query of the connected ports that starts an unrouted connection anew. */
  predicate Restarts(s: State, e: Event) {
    e.GetConnectedPorts? && !e.portConnected && s.connected && !s.audioEnabled
  }

  /** The eARC detection finds the device disconnected. */
  predicate Detects(s: State, e: Event) {
    e.ArcTimer? && s.routing != Initiated && !s.connected
  }

  predicate SettlesForArc(s: State, e: Event) {
    Detects(s, e) && !e.earc && s.detector.tries + 1 >= 3
  }

  /** The port is to be enabled and is not yet. */
  predicate Enables(s: State, e: Event) {
    e.EnablePort? && e.enable && e.system != Standby && s.connected && !s.audioEnabled
  }

  predicate EnablesBitstream(s: State, e: Event) {
    Enables(s, e) && s.devType == ArcDevice && e.bitstream
  }

  /** The descriptor timer expires for audio that waits. */
  predicate Expires(s: State, e: Event) {
    e.SadTimer? && !s.audioEnabled && s.connected
  }

  predicate Takes(s: State, e: Event) {
    e.DescriptorReport? && e.report.Some? && s.sad == SadRequested
  }

  /** A report with descriptors comes during an initiated connection. */
  predicate Serving(s: State, e: Event) {
    Takes(s, e) && e.report.value != [] && s.routing == Initiated
  }

  predicate Missing(s: State) {
    s.sad == SadUnknown || s.sad == SadCleared
  }

  predicate ChangesSound(s: State, e: Event) {
    e.SetSoundMode? && e.portConnected && s.connected && s.devType == ArcDevice
  }

  predicate AsksPowerAgain(s: State, e: Event) {
    e.PowerTimer? && e.subscribed && s.probe.detected && s.probe.power != PowerOn
  }

  function RetriesMade(s: State, e: Event): nat {
    s.probe.powerRetries + if AsksPowerAgain(s, e) then 1 else 0
  }

  predicate GivesUp(s: State, e: Event) {
    e.PowerTimer? && RetriesMade(s, e) >= 5 && s.probe.powerTimer
  }

  predicate Welcomes(e: Event) {
    e.PortsInitialised? && e.subscribed && e.present
  }

  // ---------------------------------------------------------------- the connection

  function ConnectedAfter(s: State, e: Event): bool {
    match e
    case Initiation(status, _) => s.connected || (Heeds(s, status) && status.value)
    case ArcTimer(earc) => s.connected || (earc && s.routing != Initiated)
    case DevicePowerStatus(power, earc) => s.connected || (earc && power == ReportOn)
    case Termination(status) => s.connected && (status != Some(true) || s.routing == Terminated)
    case SystemAudioMode(mode) => s.connected && mode != ModeOff
    case DeviceStatus(present) => s.connected && present
    case CecStatus(enabled) => s.connected && enabled
    case _ => s.connected && !LeavesOn(e) && !ArcPortUnplugged(e) && !Restarts(s, e)
  }

  /** The notification that a step sends: of the port's own events, and of a change of the
      connection unless it is known already; terminations and the end of system audio are not told
      if the connection was not. */
  function Told(s: State, e: Event): Option<bool> {
    if e.AudioOutHotPlug? then if e.arcPort then Some(e.plugged) else None
    else if ConnectedAfter(s, e) && !s.connected then if s.notified then None else Some(true)
    else if s.connected && !ConnectedAfter(s, e) then
      if (e.Termination? || e.SystemAudioMode?) && !s.notified then None else Some(false)
    else None
  }

  function TypeAfter(s: State, e: Event): DeviceType {
    match e
    case Initiation(status, _) => if Heeds(s, status) && status.value && s.devType == NoDevice then ArcDevice else s.devType
    case ArcTimer(earc) =>
      if Detects(s, e) && earc then EarcDevice else if SettlesForArc(s, e) then ArcDevice else s.devType
    case DevicePowerStatus(power, earc) => if power == ReportOn && earc && !s.connected then EarcDevice else s.devType
    case EnablePort(enable, _, _) => if !enable && s.audioEnabled && !s.connected then NoDevice else s.devType
    case DeviceStatus(present) => if present || s.audioEnabled then s.devType else NoDevice
    case CecStatus(enabled) => if enabled || s.audioEnabled then s.devType else NoDevice
    case _ => if LeavesOn(e) || Restarts(s, e) then NoDevice else s.devType
  }

  function RoutingAfter(s: State, e: Event): Routing {
    match e
    case Initiation(status, _) => if !Heeds(s, status) then s.routing else if status.value then Initiated else Terminated
    case ArcTimer(_) =>
      if SettlesForArc(s, e) && s.routing == Terminated && s.probe.cec then InitiationRequested else s.routing
    case Termination(status) => if status.Some? then Terminated else s.routing
    case SystemAudioMode(mode) => if mode == ModeOff && s.connected then Terminated else s.routing
    case DeviceStatus(present) => if !present && s.connected then Terminated else s.routing
    case _ => if LeavesOn(e) || ArcPortUnplugged(e) || Restarts(s, e) then Terminated else s.routing
  }

  predicate LinkFollows(s: State, t: State, e: Event) {
    && t.connected == ConnectedAfter(s, e)
    && t.notified == (if ConnectedAfter(s, e) && !s.connected then true
                      else if s.connected && !ConnectedAfter(s, e) then false
                      else if Told(s, e).Some? then Told(s, e).value else s.notified)
    && t.world.notifications == s.world.notifications + (if Told(s, e).Some? then [Told(s, e).value] else [])
    && t.archive.connection == s.archive.connection + (if ConnectedAfter(s, e) && !s.connected then 1 else 0)
    && t.devType == TypeAfter(s, e)
    && t.routing == RoutingAfter(s, e)
  }

  // ---------------------------------------------------------------- audio

  /** The routing command that a step gives. */
  function Commanded(s: State, e: Event): Option<Command> {
    match e
    case EnablePort(enable, _, bitstream) =>
      if !enable then if s.audioEnabled && s.devType != NoDevice then Some(Command(s.devType, false)) else None
      else if !Enables(s, e) then None
      else if s.devType == EarcDevice then Some(Command(EarcDevice, true))
      else if !bitstream || s.sad == SadReceived || s.sad == SadUpdated then Some(Command(ArcDevice, true))
      else None
    case SadTimer => if Expires(s, e) && (s.sad == SadReceived || s.retrigger) then Some(Command(ArcDevice, true)) else None
    case DescriptorReport(_) =>
      if Serving(s, e) && s.sadTimer && !s.audioEnabled then Some(Command(ArcDevice, true)) else None
    case _ => if LeavesOn(e) && s.audioEnabled then Some(Command(ArcDevice, false)) else None
  }

  function TimerAfter(s: State, e: Event): bool {
    match e
    case EnablePort(_, _, _) => s.sadTimer || (EnablesBitstream(s, e) && s.sad == SadRequested)
    case SadTimer => Expires(s, e) && s.sad != SadReceived && !s.retrigger
    case DescriptorReport(_) => s.sadTimer && !Serving(s, e)
    case _ => s.sadTimer && !LeavesOn(e)
  }

  predicate AudioFollows(s: State, t: State, e: Event) {
    && t.audioEnabled == (if Commanded(s, e).Some? then Commanded(s, e).value.on else s.audioEnabled)
    && t.world.command == (if Commanded(s, e).Some? then Commanded(s, e).value else s.world.command)
    && t.sadTimer == TimerAfter(s, e)
  }

  // ---------------------------------------------------------------- descriptors

  /** The device is asked for its descriptors: when they are missing at an initiation or for a
      sound mode that needs them, and by the timer, once more. */
  predicate AsksForDescriptors(s: State, e: Event) {
    match e
    case Initiation(status, bitstream) => Heeds(s, status) && status.value && bitstream && Missing(s)
    case SetSoundMode(_, auto, stereo) =>
      ChangesSound(s, e) && Missing(s) && (auto || (stereo != Surround && stereo != Stereo))
    case SadTimer => Expires(s, e) && s.sad != SadReceived && !s.retrigger
    case _ => false
  }

  /** The descriptors are dropped. */
  predicate Clears(s: State, e: Event) {
    match e
    case Termination(_) => true
    case DeviceStatus(present) => !present && s.sad != SadUnknown
    case SetSoundMode(_, auto, stereo) => ChangesSound(s, e) && !auto && stereo == Stereo
    case _ => ArcPortUnplugged(e)
  }

  /** The port is given the descriptors: received ones when the port is enabled or the timer
      expires, and those that come while audio is routed or awaited. */
  predicate Delivers(s: State, e: Event) {
    match e
    case EnablePort(_, _, _) => EnablesBitstream(s, e) && s.sad == SadReceived
    case SadTimer => Expires(s, e) && s.sad == SadReceived
    case DescriptorReport(_) => Serving(s, e) && (s.audioEnabled || s.sadTimer)
    case _ => false
  }

  function DescriptorsAfter(s: State, e: Event): Descriptors {
    if AsksForDescriptors(s, e) then SadRequested
    else if Clears(s, e) then SadCleared
    else if Delivers(s, e) then SadUpdated
    else if Takes(s, e) then SadReceived
    else if Restarts(s, e) then SadUnknown
    else s.sad
  }

  function Appended(s: State, e: Event): seq<int> {
    if Takes(s, e) then e.report.value else []
  }

  predicate DescriptorsFollow(s: State, t: State, e: Event) {
    && t.sad == DescriptorsAfter(s, e)
    && t.sadList == (if Clears(s, e) then [] else s.sadList + Appended(s, e))
    && t.archive.kept == (if Clears(s, e) then [] else if Appended(s, e) == [] then s.archive.kept
                          else s.archive.kept + [Report(s.archive.connection, Appended(s, e))])
    && t.archive.given == s.archive.given + (if Delivers(s, e) then [Delivery(t.sadList, t.archive.kept)] else [])
    && t.world.asked == s.world.asked + (if AsksForDescriptors(s, e) then 1 else 0)
    && t.world.taken == s.world.taken + (if Takes(s, e) then 1 else 0)
    && t.retrigger == RetriggerAfter(s, e)
  }

  /** Whether the timer asked once more: from then until an answer, the next expiry, or the end. */
  function RetriggerAfter(s: State, e: Event): bool {
    match e
    case SadTimer => if Expires(s, e) then s.sad != SadReceived && !s.retrigger else s.retrigger
    case SystemAudioMode(mode) => s.retrigger && !(mode == ModeOff && s.connected)
    case _ =>
      && s.retrigger && !Clears(s, e) && !Takes(s, e) && !LeavesOn(e) && !Restarts(s, e)
  }

  // ---------------------------------------------------------------- the device

  function DetectorAfter(s: State, e: Event): Detector {
    match e
    case ArcTimer(earc) =>
      var tries := s.detector.tries + if Detects(s, e) && !earc then 1 else 0;
      if s.detector.armed && (tries >= 3 || s.routing == Initiated || TypeAfter(s, e) != NoDevice) then Detector(false, 0)
      else Detector(s.detector.armed, tries)
    case DevicePowerStatus(power, earc) =>
      Detector(s.detector.armed || (power == ReportOn && !earc && !s.connected), s.detector.tries)
    case _ => Detector(s.detector.armed && !LeavesOn(e), s.detector.tries)
  }

  function PowerAfter(s: State, e: Event): DevicePower {
    match e
    case PowerTimer(_) => if AsksPowerAgain(s, e) then PowerRequested else s.probe.power
    case ReconnectTimer(_, subscribed) => if subscribed then PowerRequested else s.probe.power
    case SystemAudioMode(mode) =>
      if mode == ModeOn then PowerRequested else if mode == ModeOff then PowerUnknown else s.probe.power
    case DeviceStatus(present) => if present then PowerRequested else if s.connected then PowerUnknown else s.probe.power
    case DevicePowerStatus(power, _) =>
      if power == ReportOn then PowerOn else if power == ReportStandby then PowerStandby
      else if power == ReportStarting then PowerRequested else s.probe.power
    case CecStatus(enabled) => if !enabled && s.connected then PowerUnknown else s.probe.power
    case _ => if s.connected && (LeavesOn(e) || ArcPortUnplugged(e) || Restarts(s, e)) then PowerUnknown else s.probe.power
  }

  /** Whether an initiation would be heeded: not from a request to switch on until the device
      reported, system audio came on, or the tries were used up. */
  function ConfirmedAfter(s: State, e: Event): bool {
    match e
    case PowerTimer(_) => s.probe.confirmed || GivesUp(s, e)
    case DetectTimer(subscribed) => s.probe.confirmed && !(subscribed && s.probe.detected)
    case PortsInitialised(_, _, _) => !Welcomes(e)
    case SystemAudioMode(mode) => s.probe.confirmed || mode == ModeOn
    case DevicePowerStatus(power, _) => s.probe.confirmed || power == ReportOn
    case _ => s.probe.confirmed
  }

  function PowerTimerAfter(s: State, e: Event): bool {
    match e
    case PowerTimer(_) => s.probe.powerTimer && !GivesUp(s, e)
    case DetectTimer(subscribed) => s.probe.powerTimer || (subscribed && s.probe.detected)
    case PortsInitialised(_, _, _) => s.probe.powerTimer || Welcomes(e)
    case DevicePowerStatus(power, _) => s.probe.powerTimer && power != ReportOn
    case _ => s.probe.powerTimer && !LeavesOn(e)
  }

  function RetriesAfter(s: State, e: Event): nat {
    match e
    case PowerTimer(_) => if GivesUp(s, e) then 0 else RetriesMade(s, e)
    case DevicePowerStatus(power, _) => if power == ReportOn && s.probe.powerTimer then 0 else s.probe.powerRetries
    case _ => s.probe.powerRetries
  }

  function CecAfter(s: State, e: Event): bool {
    match e
    case CecStatus(enabled) => enabled
    case ReconnectTimer(cec, _) => s.probe.cec || cec
    case PortsInitialised(_, cec, _) => cec
    case _ => s.probe.cec
  }

  function DetectedAfter(s: State, e: Event): bool {
    match e
    case DeviceStatus(present) => present
    case PortsInitialised(present, _, _) => present
    case _ => s.probe.detected
  }

  predicate DeviceFollows(s: State, t: State, e: Event) {
    && t.detector == DetectorAfter(s, e)
    && t.probe.power == PowerAfter(s, e)
    && t.probe.confirmed == ConfirmedAfter(s, e)
    && t.probe.powerTimer == PowerTimerAfter(s, e)
    && t.probe.powerRetries == RetriesAfter(s, e)
    && t.probe.cec == CecAfter(s, e)
    && t.probe.detected == DetectedAfter(s, e)
  }

  // ---------------------------------------------------------------- messages

  /** The messages that a step queues for the device, in their order. */
  function Messages(s: State, e: Event): seq<Message> {
    match e
    case EnablePort(_, _, _) => if Enables(s, e) && s.devType == ArcDevice then [SendPowerOn] else []
    case ArcTimer(_) => if SettlesForArc(s, e) && s.routing == Terminated && s.probe.cec then [AskInitiation] else []
    case PowerTimer(_) =>
      if !AsksPowerAgain(s, e) then []
      else if s.probe.powerRetries == 2 || s.probe.powerRetries == 4 then [SendPowerOn, AskPowerStatus]
      else [AskPowerStatus]
    case DetectTimer(subscribed) => if subscribed && s.probe.detected then [SendPowerOn] else []
    case ReconnectTimer(_, subscribed) => if subscribed then [SendPowerOn, AskPowerStatus] else []
    case PortsInitialised(_, _, _) => if Welcomes(e) then [AskAudioStatus, SendPowerOn] else []
    case SystemAudioMode(mode) => if mode == ModeOn then [AskPowerStatus] else []
    case DeviceStatus(present) => if present then [AskAudioStatus, AskPowerStatus] else []
    case DevicePowerStatus(power, _) => if power == ReportStarting then [AskPowerStatus] else []
    case GetConnectedPorts(_) => if Restarts(s, e) then [SendPowerOn] else []
    case _ => if AsksForDescriptors(s, e) then [AskDescriptors] else []
  }

  // ---------------------------------------------------------------- all of them

  predicate Linked(s: State, t: State, e: Event) {
    LinkFollows(s, t, e) && AudioFollows(s, t, e)
  }

  predicate Asks(s: State, t: State, e: Event) {
    DeviceFollows(s, t, e) && t.world.sent == s.world.sent + Messages(s, e)
  }

  predicate Served(s: State, t: State, e: Event) {
    DescriptorsFollow(s, t, e) && Asks(s, t, e)
  }

  predicate Follows(s: State, t: State, e: Event) {
    Linked(s, t, e) && Served(s, t, e)
  }
}
