/** The ARC/eARC flags and handlers of the plugin, updated in place; each handler is a step of
    the ARC machine. */
module ArcDisplaySettings {
  import opened PowerTypes
  import opened Arc
  import opened ArcFrames
  import opened ArcInvariants
  import opened ArcDescriptors
  import opened ArcTheorems

  lemma AfterInitiation(past: seq<Event>, status: Option<bool>, bitstream: bool)
    ensures After(INIT, past + [Initiation(status, bitstream)]) == OnInitiation(After(INIT, past), status, bitstream)
  {
    AfterAppend(INIT, past, Initiation(status, bitstream));
  }

  lemma AfterReport(past: seq<Event>, report: Option<seq<int>>)
    ensures After(INIT, past + [DescriptorReport(report)]) == OnDescriptorReport(After(INIT, past), report)
  {
    AfterAppend(INIT, past, DescriptorReport(report));
  }

  class DisplaySettings {
    var connected: bool
    var audioEnabled: bool
    var notified: bool
    var devType: DeviceType
    var routing: Routing
    var sad: Descriptors
    var sadList: seq<int>
    var retrigger: bool
    var sadTimer: bool
    var arcTimer: bool
    var arcTries: nat
    var detected: bool
    var power: DevicePower
    var confirmed: bool
    var powerTimer: bool
    var powerRetries: nat
    var cec: bool
    ghost var world: World
    ghost var archive: Archive
    ghost var past: seq<Event>

    ghost function Value(): State
      reads this
    {
      State(connected, audioEnabled, notified, devType, routing, sad, sadList, retrigger, sadTimer,
            Detector(arcTimer, arcTries), Probe(detected, power, confirmed, powerTimer, powerRetries, cec), world, archive)
    }

    /** The object is where the run of its past events leads, so that whatever is proved of all
        runs holds of it. */
    ghost predicate Valid()
      reads this
    {
      Value() == After(INIT, past)
    }

    constructor ()
      ensures Valid() && past == [] && Value() == INIT
    {
      connected, audioEnabled, notified, devType, routing := false, false, false, NoDevice, Terminated;
      sad, sadList, retrigger, sadTimer := SadUnknown, [], false, false;
      arcTimer, arcTries := false, 0;
      detected, power, confirmed, powerTimer, powerRetries, cec := false, PowerUnknown, true, false, 0, false;
      world, archive, past := INIT.world, INIT.archive, [];
    }

    /** Observers have heard of each connection change once, unless the port itself spoke up. */
    lemma ObserversAreTold()
      requires Valid()
      ensures NoPortHotPlug(past) ==> ToldOnce(Value())
    {
      if NoPortHotPlug(past) {
        RunTellsOnce(INIT, past);
      }
    }

    // ---------------------------------------------------------------- effects

    method SendMsgToQueue(m: Message)
      modifies this
      ensures unchanged(this`past)
      ensures Value() == Send(old(Value()), m)
    {
      world := world.(sent := world.sent + [m]);
    }

    method ConnectedAudioPortUpdated(isConnected: bool)
      modifies this
      ensures unchanged(this`past)
      ensures Value() ==
              old(Value()).(world := old(world).(notifications := old(world).notifications + [isConnected]))
    {
      world := world.(notifications := world.notifications + [isConnected]);
    }

    method EnableArc(arc: DeviceType, on: bool)
      modifies this
      ensures unchanged(this`past)
      ensures Value() == if on then Route(old(Value()), arc) else Unroute(old(Value()), arc)
    {
      world := world.(command := Command(arc, on));
      audioEnabled := on;
    }

    method RequestDescriptors()
      modifies this
      ensures unchanged(this`past)
      ensures Value() == Request(old(Value()))
    {
      SendMsgToQueue(AskDescriptors);
      world := world.(asked := world.asked + 1);
      sad := SadRequested;
    }

    method UpdateDescriptors()
      modifies this
      ensures unchanged(this`past)
      ensures Value() == GiveToPort(old(Value()))
    {
      sad := SadUpdated;
      archive := archive.(given := archive.given + [Delivery(sadList, archive.kept)]);
    }

    method ClearDescriptors()
      modifies this
      ensures unchanged(this`past)
      ensures Value() == ClearSad(old(Value()))
    {
      archive := archive.(kept := []);
      sad := SadCleared;
      retrigger := false;
      sadList := [];
    }

    method EndArcRouting()
      modifies this
      ensures unchanged(this`past)
      ensures Value() == EndRouting(old(Value()))
    {
      routing := Terminated;
      retrigger := false;
    }

    /** The connection ends; observers are told in any case. */
    method Unplug()
      modifies this
      ensures unchanged(this`past)
      ensures Value() == Arc.Unplug(old(Value()))
    {
      if connected {
        connected := false;
        ConnectedAudioPortUpdated(false);
        notified := false;
        power := PowerUnknown;
      }
    }

    /** The connection ends; observers that were told of it are told of its end. */
    method UnplugQuietly()
      modifies this
      ensures unchanged(this`past)
      ensures Value() == Arc.UnplugQuietly(old(Value()))
    {
      if connected {
        connected := false;
        if notified {
          ConnectedAudioPortUpdated(false);
          notified := false;
        }
      }
    }

    method PlugIn(devType: DeviceType)
      requires !connected
      modifies this
      ensures unchanged(this`past)
      ensures Value() == Plug(old(Value()), devType)
    {
      archive := archive.(connection := archive.connection + 1);
      connected := true;
      this.devType := devType;
      if !notified {
        ConnectedAudioPortUpdated(true);
        notified := true;
      }
    }

    // ---------------------------------------------------------------- requests

    method SetEnableAudioPort(enable: bool, system: PowerState, bitstream: bool) returns (success: bool)
      requires Valid()
      modifies this
      ensures Valid() && past == old(past) + [EnablePort(enable, system, bitstream)]
      ensures Value() == OnEnablePort(old(Value()), enable, system, bitstream)
      ensures success <==> !enable || (system != Standby && old(connected))
      ensures enable && success ==>
                (audioEnabled || Pending(Value()) <==>
                   old(audioEnabled) || old(sadTimer) || !(old(devType) == ArcDevice && bitstream && old(SadMissing(Value()))))
    {
      if connected && system != Standby {
        EnableRoutesOrWaits(past, system, bitstream);
      }
      AfterAppend(INIT, past, EnablePort(enable, system, bitstream));
      success := !(enable && system == Standby);
      if enable && !success {
        // refused
      } else if enable {
        if connected {
          if devType == EarcDevice {
            if !audioEnabled {
              EnableArc(EarcDevice, true);
            }
          } else if devType == ArcDevice {
            if !audioEnabled {
              SendMsgToQueue(SendPowerOn);
              RouteArcAudio(bitstream);
            }
          }
        } else {
          success := false;
        }
      } else if audioEnabled && devType != NoDevice {
        EnableArc(devType, false);
        if !connected {
          devType := NoDevice;
        }
      }
      past := past + [EnablePort(enable, system, bitstream)];
    }

    method RouteArcAudio(bitstream: bool)
      modifies this
      ensures unchanged(this`past)
      ensures Value() == RouteArc(old(Value()), bitstream)
    {
      if bitstream {
        match sad
        case SadUpdated => EnableArc(ArcDevice, true);
        case SadReceived =>
          UpdateDescriptors();
          EnableArc(ArcDevice, true);
        case SadRequested =>
          if !sadTimer {
            sadTimer := true;
          }
        case _ =>
      } else {
        EnableArc(ArcDevice, true);
      }
    }

    method SetSoundMode(portConnected: bool, auto: bool, stereo: StereoMode)
      requires Valid()
      modifies this
      ensures Valid() && past == old(past) + [Event.SetSoundMode(portConnected, auto, stereo)]
      ensures Value() == OnSetSoundMode(old(Value()), portConnected, auto, stereo)
    {
      AfterAppend(INIT, past, Event.SetSoundMode(portConnected, auto, stereo));
      if portConnected && devType == ArcDevice && connected {
        if (stereo == Surround || stereo == PassThru || stereo == Stereo) && !auto {
          if stereo == PassThru {
            if sad == SadCleared || sad == SadUnknown {
              RequestDescriptors();
            }
          } else if stereo == Stereo {
            if sad != SadCleared {
              ClearDescriptors();
            }
          }
        } else if sad == SadCleared || sad == SadUnknown {
          RequestDescriptors();
        }
      }
      past := past + [Event.SetSoundMode(portConnected, auto, stereo)];
    }

    /** Whether HDMI_ARC0 is listed among the connected ports. */
    method GetConnectedAudioPorts(portConnected: bool) returns (listed: bool)
      requires Valid()
      modifies this
      ensures Valid() && past == old(past) + [GetConnectedPorts(portConnected)]
      ensures Value() == OnGetConnectedPorts(old(Value()), portConnected)
      ensures listed <==> portConnected && old(connected)
      ensures NoPortHotPlug(past) ==> ToldOnce(Value())
    {
      AfterAppend(INIT, past, GetConnectedPorts(portConnected));
      listed := false;
      if portConnected {
        listed := connected;
      } else if connected && !audioEnabled {
        RestartConnection();
      }
      past := past + [GetConnectedPorts(portConnected)];
      ObserversAreTold();
    }

    method RestartConnection()
      modifies this
      ensures unchanged(this`past)
      ensures Value() == ResetConnection(old(Value()))
    {
      EndArcRouting();
      Unplug();
      devType := NoDevice;
      sad := SadUnknown;
      SendMsgToQueue(SendPowerOn);
    }

    // ---------------------------------------------------------------- timers

    method CheckSADUpdate()
      requires Valid()
      modifies this
      ensures Valid() && past == old(past) + [SadTimer]
      ensures Value() == OnSadTimer(old(Value()))
      ensures old(Pending(Value())) ==>
                && audioEnabled == (old(ExpiriesNeeded(Value())) == 1)
                && (audioEnabled || (Pending(Value()) && ExpiriesNeeded(Value()) == 1))
    {
      RunKeepsInv(INIT, past);
      if Pending(Value()) {
        TimerAdvances(Value());
      }
      AfterAppend(INIT, past, SadTimer);
      sadTimer := false;
      if !audioEnabled && connected {
        HandleExpiry();
      }
      past := past + [SadTimer];
    }

    method HandleExpiry()
      modifies this
      ensures unchanged(this`past)
      ensures Value() == StopWaiting(old(Value()))
    {
      if sad == SadReceived {
        UpdateDescriptors();
      } else if !retrigger {
        retrigger := true;
        RequestDescriptors();
        sadTimer := true;
      } else {
        retrigger := false;
      }
      if !retrigger {
        EnableArc(ArcDevice, true);
      }
    }

    method DetectDevice(earc: bool)
      modifies this
      ensures unchanged(this`past)
      ensures Value() == Detect(old(Value()), earc)
    {
      if routing != Initiated {
        if earc && !connected {
          PlugIn(EarcDevice);
        } else if !connected {
          arcTries := arcTries + 1;
          if arcTries >= DETECTION_TRIES {
            SettleAsArc();
          }
        }
      }
    }

    method EndDetection()
      modifies this
      ensures unchanged(this`past)
      ensures Value() == StopDetection(old(Value()))
    {
      arcTries := 0;
      arcTimer := false;
    }

    method SettleAsArc()
      modifies this
      ensures unchanged(this`past)
      ensures Value() == SettleForArc(old(Value()))
    {
      devType := ArcDevice;
      if routing == Terminated && cec {
        routing := InitiationRequested;
        SendMsgToQueue(AskInitiation);
      }
    }

    method CheckArcDeviceConnected(earc: bool)
      requires Valid()
      modifies this
      ensures Valid() && past == old(past) + [ArcTimer(earc)]
      ensures Value() == OnArcTimer(old(Value()), earc)
      ensures NoPortHotPlug(past) ==> ToldOnce(Value())
    {
      AfterAppend(INIT, past, ArcTimer(earc));
      DetectDevice(earc);
      if arcTimer && (arcTries >= DETECTION_TRIES || routing == Initiated || devType != NoDevice) {
        EndDetection();
      }
      past := past + [ArcTimer(earc)];
      ObserversAreTold();
    }

    method CheckAudioDevicePowerStatusTimer(subscribed: bool)
      requires Valid()
      modifies this
      ensures Valid() && past == old(past) + [PowerTimer(subscribed)]
      ensures Value() == OnPowerTimer(old(Value()), subscribed)
    {
      AfterAppend(INIT, past, PowerTimer(subscribed));
      if subscribed && detected && power != PowerOn {
        AskForPowerStatus();
      }
      if powerRetries >= 5 && powerTimer {
        StopAsking();
      }
      past := past + [PowerTimer(subscribed)];
    }

    method StopAsking()
      modifies this
      ensures unchanged(this`past)
      ensures Value() == GiveUp(old(Value()))
    {
      confirmed := true;
      powerRetries := 0;
      powerTimer := false;
    }

    method AskForPowerStatus()
      modifies this
      ensures unchanged(this`past)
      ensures Value() == AskAgain(old(Value()))
    {
      power := PowerRequested;
      if powerRetries == 2 || powerRetries == 4 {
        SendMsgToQueue(SendPowerOn);
      }
      SendMsgToQueue(AskPowerStatus);
      powerRetries := powerRetries + 1;
    }

    method CheckAudioDeviceDetectionTimer(subscribed: bool)
      requires Valid()
      modifies this
      ensures Valid() && past == old(past) + [DetectTimer(subscribed)]
      ensures Value() == OnDetectTimer(old(Value()), subscribed)
    {
      AfterAppend(INIT, past, DetectTimer(subscribed));
      if subscribed && detected {
        SwitchDeviceOn();
      }
      past := past + [DetectTimer(subscribed)];
    }

    method OnTimer(cecStatus: bool, subscribed: bool)
      requires Valid()
      modifies this
      ensures Valid() && past == old(past) + [ReconnectTimer(cecStatus, subscribed)]
      ensures Value() == OnReconnectTimer(old(Value()), cecStatus, subscribed)
    {
      AfterAppend(INIT, past, ReconnectTimer(cecStatus, subscribed));
      if !cec {
        cec := cecStatus;
      }
      if subscribed {
        GreetDevice();
      }
      past := past + [ReconnectTimer(cecStatus, subscribed)];
    }

    method InitAudioPorts(present: bool, cecStatus: bool, subscribed: bool)
      requires Valid()
      modifies this
      ensures Valid() && past == old(past) + [PortsInitialised(present, cecStatus, subscribed)]
      ensures Value() == OnPortsInitialised(old(Value()), present, cecStatus, subscribed)
    {
      AfterAppend(INIT, past, PortsInitialised(present, cecStatus, subscribed));
      NoteDevice(present, cecStatus);
      if subscribed && detected {
        WelcomeDevice();
      }
      past := past + [PortsInitialised(present, cecStatus, subscribed)];
    }

    method NoteDevice(present: bool, cecStatus: bool)
      modifies this
      ensures unchanged(this`past)
      ensures Value() == LookAround(old(Value()), present, cecStatus)
    {
      confirmed := true;
      detected := present;
      cec := cecStatus;
    }

    method SwitchDeviceOn()
      modifies this
      ensures unchanged(this`past)
      ensures Value() == PowerOnDevice(old(Value()))
    {
      confirmed := false;
      SendMsgToQueue(SendPowerOn);
      powerTimer := true;
    }

    method GreetDevice()
      modifies this
      ensures unchanged(this`past)
      ensures Value() == Greet(old(Value()))
    {
      SendMsgToQueue(SendPowerOn);
      power := PowerRequested;
      SendMsgToQueue(AskPowerStatus);
    }

    method WelcomeDevice()
      modifies this
      ensures unchanged(this`past)
      ensures Value() == Welcome(old(Value()))
    {
      confirmed := false;
      SendMsgToQueue(AskAudioStatus);
      SendMsgToQueue(SendPowerOn);
      powerTimer := true;
    }

    // ---------------------------------------------------------------- CEC events

    method OnARCInitiation(status: Option<bool>, bitstream: bool)
      requires Valid()
      modifies this
      ensures Valid() && past == old(past) + [Initiation(status, bitstream)]
      ensures Value() == OnInitiation(old(Value()), status, bitstream)
      ensures NoPortHotPlug(past) ==> ToldOnce(Value())
    {
      AfterInitiation(past, status, bitstream);
      if status.Some? && routing != Initiated && confirmed {
        if status.value {
          if (sad == SadCleared || sad == SadUnknown) && bitstream {
            RequestDescriptors();
          }
          BeginRouting();
        } else {
          routing := Terminated;
        }
      }
      past := past + [Initiation(status, bitstream)];
      ObserversAreTold();
    }

    method BeginRouting()
      modifies this
      ensures unchanged(this`past)
      ensures Value() == Begin(old(Value()))
    {
      routing := Initiated;
      if devType == NoDevice {
        devType := ArcDevice;
      }
      if !connected {
        PlugIn(devType);
      }
    }

    method OnARCTermination(status: Option<bool>)
      requires Valid()
      modifies this
      ensures Valid() && past == old(past) + [Termination(status)]
      ensures Value() == OnTermination(old(Value()), status)
      ensures NoPortHotPlug(past) ==> ToldOnce(Value())
    {
      AfterAppend(INIT, past, Termination(status));
      if sad != SadCleared {
        ClearDescriptors();
      }
      if routing != Terminated {
        if status.Some? {
          EndArcRouting();
          if status.value {
            UnplugQuietly();
          }
        }
      }
      past := past + [Termination(status)];
      ObserversAreTold();
    }

    method OnShortAudioDescriptor(report: Option<seq<int>>)
      requires Valid()
      modifies this
      ensures Valid() && past == old(past) + [DescriptorReport(report)]
      ensures Value() == OnDescriptorReport(old(Value()), report)
      ensures old(Pending(Value())) ==>
                audioEnabled || (Pending(Value()) && ExpiriesNeeded(Value()) <= old(ExpiriesNeeded(Value())))
    {
      RunKeepsInv(INIT, past);
      if Pending(Value()) {
        ReportHelps(Value(), report);
      }
      AfterReport(past, report);
      if report.Some? && sad == SadRequested {
        ReceiveReport();
        if report.value != [] {
          AppendDescriptors(report.value);
          if routing == Initiated {
            DeliverDescriptors();
          }
        }
      }
      past := past + [DescriptorReport(report)];
    }

    method ReceiveReport()
      modifies this
      ensures unchanged(this`past)
      ensures Value() == TakeAny(old(Value()))
    {
      sad := SadReceived;
      retrigger := false;
      world := world.(taken := world.taken + 1);
    }

    method AppendDescriptors(report: seq<int>)
      modifies this
      ensures unchanged(this`past)
      ensures Value() == Keep(old(Value()), report)
    {
      sadList := sadList + report;
      archive := archive.(kept := archive.kept + [Report(archive.connection, report)]);
    }

    method DeliverDescriptors()
      modifies this
      ensures unchanged(this`past)
      ensures Value() == Deliver(old(Value()))
    {
      var wasActive := sadTimer;
      sadTimer := false;
      if wasActive && !audioEnabled {
        UpdateDescriptors();
        EnableArc(ArcDevice, true);
      } else if audioEnabled {
        UpdateDescriptors();
      }
    }

    method OnSystemAudioMode(mode: AudioMode)
      requires Valid()
      modifies this
      ensures Valid() && past == old(past) + [SystemAudioMode(mode)]
      ensures Value() == Arc.OnSystemAudioMode(old(Value()), mode)
      ensures NoPortHotPlug(past) ==> ToldOnce(Value())
    {
      AfterAppend(INIT, past, SystemAudioMode(mode));
      if mode == ModeOn {
        SystemAudioStarts();
      } else if mode == ModeOff {
        SystemAudioEnds();
      }
      past := past + [SystemAudioMode(mode)];
      ObserversAreTold();
    }

    method SystemAudioStarts()
      modifies this
      ensures unchanged(this`past)
      ensures Value() == SystemAudioOn(old(Value()))
    {
      confirmed := true;
      power := PowerRequested;
      SendMsgToQueue(AskPowerStatus);
    }

    method SystemAudioEnds()
      modifies this
      ensures unchanged(this`past)
      ensures Value() == SystemAudioOff(old(Value()))
    {
      power := PowerUnknown;
      if connected {
        UnplugQuietly();
        EndArcRouting();
      }
    }

    method OnAudioDeviceConnectedStatus(present: bool)
      requires Valid()
      modifies this
      ensures Valid() && past == old(past) + [DeviceStatus(present)]
      ensures Value() == OnDeviceStatus(old(Value()), present)
      ensures NoPortHotPlug(past) ==> ToldOnce(Value())
    {
      AfterAppend(INIT, past, DeviceStatus(present));
      if present {
        AudioDeviceFound();
      } else {
        AudioDeviceGone();
      }
      past := past + [DeviceStatus(present)];
      ObserversAreTold();
    }

    method AudioDeviceFound()
      modifies this
      ensures unchanged(this`past)
      ensures Value() == OnDeviceFound(old(Value()))
    {
      detected := true;
      SendMsgToQueue(AskAudioStatus);
      power := PowerRequested;
      SendMsgToQueue(AskPowerStatus);
    }

    method AudioDeviceGone()
      modifies this
      ensures unchanged(this`past)
      ensures Value() == OnDeviceGone(old(Value()))
    {
      detected := false;
      RemoveDevice();
      ForgetDevice();
    }

    method ForgetDevice()
      modifies this
      ensures unchanged(this`past)
      ensures Value() == Forget(old(Value()))
    {
      if sad != SadCleared && sad != SadUnknown {
        ClearDescriptors();
      }
      if !audioEnabled && devType != NoDevice {
        devType := NoDevice;
      }
    }

    method RemoveDevice()
      modifies this
      ensures unchanged(this`past)
      ensures Value() == Arc.RemoveDevice(old(Value()))
    {
      if connected {
        Unplug();
        EndArcRouting();
      }
    }

    method FindEarcDevice(earc: bool)
      modifies this
      ensures unchanged(this`past)
      ensures Value() == FindEarc(old(Value()), earc)
    {
      if earc && !connected {
        PlugIn(EarcDevice);
      } else if !connected && !arcTimer {
        arcTimer := true;
      }
    }

    method ConfirmPower()
      modifies this
      ensures unchanged(this`past)
      ensures Value() == Confirm(old(Value()))
    {
      power := PowerOn;
      confirmed := true;
      if powerTimer {
        powerRetries := 0;
        powerTimer := false;
      }
    }

    method TakePowerReport(report: DeviceReport, earc: bool)
      modifies this
      ensures unchanged(this`past)
      ensures Value() == OnDevicePowerStatus(old(Value()), report, earc)
    {
      match report
      case ReportOn =>
        ConfirmPower();
        FindEarcDevice(earc);
      case ReportStandby => power := PowerStandby;
      case ReportStarting =>
        power := PowerRequested;
        SendMsgToQueue(AskPowerStatus);
      case ReportOther =>
    }

    method OnAudioDevicePowerStatus(report: DeviceReport, earc: bool)
      requires Valid()
      modifies this
      ensures Valid() && past == old(past) + [DevicePowerStatus(report, earc)]
      ensures Value() == OnDevicePowerStatus(old(Value()), report, earc)
      ensures NoPortHotPlug(past) ==> ToldOnce(Value())
    {
      AfterAppend(INIT, past, DevicePowerStatus(report, earc));
      TakePowerReport(report, earc);
      past := past + [DevicePowerStatus(report, earc)];
      ObserversAreTold();
    }

    method OnCecEnabled(enabled: bool)
      requires Valid()
      modifies this
      ensures Valid() && past == old(past) + [CecStatus(enabled)]
      ensures Value() == OnCecStatus(old(Value()), enabled)
      ensures NoPortHotPlug(past) ==> ToldOnce(Value())
    {
      AfterAppend(INIT, past, CecStatus(enabled));
      if enabled {
        cec := true;
      } else {
        CecDisabled();
      }
      past := past + [CecStatus(enabled)];
      ObserversAreTold();
    }

    method CecDisabled()
      modifies this
      ensures unchanged(this`past)
      ensures Value() == CecOff(old(Value()))
    {
      cec := false;
      if !audioEnabled && devType != NoDevice {
        devType := NoDevice;
      }
      Unplug();
    }

    // ---------------------------------------------------------------- system events

    method OnPowerModeChanged(system: PowerState, arcSupported: bool)
      requires Valid()
      modifies this
      ensures Valid() && past == old(past) + [PowerModeChanged(system, arcSupported)]
      ensures Value() == Arc.OnPowerModeChanged(old(Value()), system, arcSupported)
      ensures system != On && arcSupported ==>
                && !connected && routing == Terminated && !audioEnabled && devType == NoDevice
                && !sadTimer && !arcTimer && !powerTimer
                && world.command == if old(audioEnabled) then Command(ArcDevice, false) else old(world.command)
      ensures NoPortHotPlug(past) ==> ToldOnce(Value())
    {
      AfterAppend(INIT, past, PowerModeChanged(system, arcSupported));
      if system != On && arcSupported {
        EndArcRouting();
        Unplug();
        SilencePort();
        StopTimers();
      }
      past := past + [PowerModeChanged(system, arcSupported)];
      ObserversAreTold();
    }

    method SilencePort()
      modifies this
      ensures unchanged(this`past)
      ensures Value() == Silence(old(Value()))
    {
      if audioEnabled {
        EnableArc(ArcDevice, false);
      }
      devType := NoDevice;
    }

    method StopTimers()
      modifies this
      ensures unchanged(this`past)
      ensures Value() == Arc.StopTimers(old(Value()))
    {
      sadTimer, arcTimer, powerTimer := false, false, false;
    }

    method OnHdmiInEventHotPlug(arcPort: bool, plugged: bool)
      requires Valid()
      modifies this
      ensures Valid() && past == old(past) + [HdmiInHotPlug(arcPort, plugged)]
      ensures Value() == OnHdmiInHotPlug(old(Value()), arcPort, plugged)
      ensures NoPortHotPlug(past) ==> ToldOnce(Value())
    {
      AfterAppend(INIT, past, HdmiInHotPlug(arcPort, plugged));
      if arcPort && !plugged {
        Unplug();
        EndArcRouting();
        if sad != SadCleared {
          ClearDescriptors();
        }
      }
      past := past + [HdmiInHotPlug(arcPort, plugged)];
      ObserversAreTold();
    }

    method OnAudioOutHotPlug(arcPort: bool, plugged: bool)
      requires Valid()
      modifies this
      ensures Valid() && past == old(past) + [AudioOutHotPlug(arcPort, plugged)]
      ensures Value() == Arc.OnAudioOutHotPlug(old(Value()), arcPort, plugged)
    {
      AfterAppend(INIT, past, AudioOutHotPlug(arcPort, plugged));
      if arcPort {
        ConnectedAudioPortUpdated(plugged);
        notified := plugged;
      }
      past := past + [AudioOutHotPlug(arcPort, plugged)];
    }
  }
}
