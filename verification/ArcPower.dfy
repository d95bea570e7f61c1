/** Whether the ARC device is ever confirmed to be on, which an ARC initiation needs. */
module ArcPower {
  import opened PowerTypes
  import opened Arc
  import opened ArcFrames

  const POWER_TRIES: nat := 5

  /** A detected device whose confirmation the power timer is to bring about. */
  predicate Unconfirmed(s: State) {
    s.probe.detected && s.probe.powerTimer && !s.probe.confirmed
  }

  /** So many expiries of the power timer, one after the other. */
  function Expire(s: State, n: nat): State
    decreases n
  {
    if n == 0 then s else Expire(OnPowerTimer(s, true), n - 1)
  }

  /** The expiries that a device asked for still needs. */
  function ExpiriesLeft(s: State): nat {
    if s.probe.powerRetries + 1 >= POWER_TRIES then 1 else POWER_TRIES - s.probe.powerRetries
  }

  lemma ExpiryAsks(s: State)
    requires Unconfirmed(s) && s.probe.power != PowerOn
    ensures var t := OnPowerTimer(s, true);
            if s.probe.powerRetries + 1 >= POWER_TRIES then t.probe.confirmed && !t.probe.powerTimer && t.probe.powerRetries == 0
            else Unconfirmed(t) && t.probe.power == PowerRequested && t.probe.powerRetries == s.probe.powerRetries + 1
  {
    AskAgainCounts(s);
  }

  lemma AskAgainCounts(s: State)
    ensures AskAgain(s).probe == s.probe.(power := PowerRequested, powerRetries := s.probe.powerRetries + 1)
  {
  }

  lemma ExpiryGivesUp(s: State)
    requires Unconfirmed(s) && s.probe.power == PowerOn
    ensures if s.probe.powerRetries >= POWER_TRIES then OnPowerTimer(s, true).probe.confirmed else OnPowerTimer(s, true) == s
  {
  }

  lemma {:induction false} AskingConfirms(s: State, n: nat)
    requires Unconfirmed(s) && s.probe.power != PowerOn && n == ExpiriesLeft(s)
    ensures Expire(s, n).probe.confirmed
    decreases n
  {
    ExpiryAsks(s);
    if n > 1 {
      AskingConfirms(OnPowerTimer(s, true), n - 1);
    }
  }

  lemma {:induction false} SilenceLasts(s: State, n: nat)
    requires Unconfirmed(s) && s.probe.power == PowerOn && s.probe.powerRetries < POWER_TRIES
    ensures Expire(s, n) == s
  {
    if n > 0 {
      ExpiryGivesUp(s);
      SilenceLasts(s, n - 1);
    }
  }

  /** An unconfirmed device is confirmed by expiries of the power timer, and then within five of
      them, exactly if it is not known to be on already, or the tries were used up before. */
  lemma ExpiriesConfirmExactlyWhen(s: State)
    requires Unconfirmed(s)
    ensures (exists n: nat :: Expire(s, n).probe.confirmed) <==>
            s.probe.power != PowerOn || s.probe.powerRetries >= POWER_TRIES
    ensures (exists n: nat :: Expire(s, n).probe.confirmed) ==> exists n: nat :: n <= POWER_TRIES && Expire(s, n).probe.confirmed
  {
    if s.probe.power != PowerOn {
      AskingConfirms(s, ExpiriesLeft(s));
      assert ExpiriesLeft(s) <= POWER_TRIES;
    } else if s.probe.powerRetries >= POWER_TRIES {
      ExpiryGivesUp(s);
      assert Expire(s, 1) == Expire(OnPowerTimer(s, true), 0);
      assert Expire(s, 1).probe.confirmed;
    } else {
      forall n: nat
        ensures !Expire(s, n).probe.confirmed
      {
        SilenceLasts(s, n);
      }
    }
  }

  // ---------------------------------------------------------------- whatever happens in between

  /** The device is lost, the system leaves ON, or all is set up anew. */
  predicate Aborts(e: Event) {
    || (e.DeviceStatus? && !e.present) || e.PortsInitialised?
    || (e.PowerModeChanged? && e.system != On) || (e.PowerTimer? && !e.subscribed)
  }

  predicate Asking(s: State) {
    Unconfirmed(s) && s.probe.power != PowerOn
  }

  lemma InitiationLeavesProbe(s: State, status: Option<bool>, bitstream: bool)
    ensures OnInitiation(s, status, bitstream).probe == s.probe
  {
    assert Begin(s).probe == s.probe && Begin(Request(s)).probe == s.probe;
  }

  lemma EnablePortLeavesProbe(s: State, enable: bool, system: PowerState, bitstream: bool)
    ensures OnEnablePort(s, enable, system, bitstream).probe == s.probe
  {
  }

  lemma DescriptorsLeaveProbe(s: State, report: Option<seq<int>>)
    ensures OnDescriptorReport(s, report).probe == s.probe && OnSadTimer(s).probe == s.probe
  {
  }

  lemma DetectionLeavesProbe(s: State, earc: bool)
    ensures OnArcTimer(s, earc).probe == s.probe
  {
  }

  lemma TerminationLeavesProbe(s: State, status: Option<bool>)
    ensures OnTermination(s, status).probe == s.probe
  {
    assert UnplugQuietly(EndRouting(s)).probe == s.probe;
    assert UnplugQuietly(EndRouting(ClearSad(s))).probe == s.probe;
  }

  lemma UnplugsKeepAsking(s: State)
    requires Asking(s)
    ensures Asking(Unplug(s)) && Unplug(s).probe.powerRetries == s.probe.powerRetries
    ensures UnplugQuietly(s).probe == s.probe
  {
  }

  /** The retry count of a device that is asked for, unless it was confirmed meanwhile. */
  predicate StillAsking(s: State, t: State, asked: nat) {
    t.probe.confirmed || (Asking(t) && t.probe.powerRetries == s.probe.powerRetries + asked)
  }

  lemma StatusKeepsAsking(s: State, power: DeviceReport, earc: bool)
    requires Asking(s)
    ensures StillAsking(s, OnDevicePowerStatus(s, power, earc), 0)
  {
    match power
    case ReportOn =>
      var t := Confirm(s);
      assert t.probe.confirmed && FindEarc(t, earc).probe == t.probe;
    case _ =>
  }

  lemma SystemAudioKeepsAsking(s: State, mode: AudioMode)
    requires Asking(s)
    ensures StillAsking(s, OnSystemAudioMode(s, mode), 0)
  {
    UnplugsKeepAsking(WithProbe(s, s.probe.(power := PowerUnknown)));
  }

  lemma CecKeepsAsking(s: State, enabled: bool)
    requires Asking(s)
    ensures StillAsking(s, OnCecStatus(s, enabled), 0)
  {
    var t := WithProbe(s, s.probe.(cec := false));
    UnplugsKeepAsking(if t.audioEnabled then t else WithType(t, NoDevice));
  }

  lemma DroppingKeepsAsking(s: State, e: Event)
    requires Asking(s) && (e.SystemAudioMode? || e.CecStatus? || e.HdmiInHotPlug? || e.GetConnectedPorts?)
    ensures StillAsking(s, Next(s, e), 0)
  {
    match e
    case SystemAudioMode(mode) => SystemAudioKeepsAsking(s, mode);
    case CecStatus(enabled) => CecKeepsAsking(s, enabled);
    case HdmiInHotPlug(_, _) => UnplugsKeepAsking(s);
    case GetConnectedPorts(_) => UnplugsKeepAsking(EndRouting(s));
  }

  lemma AudioLeavesProbe(s: State, e: Event)
    requires e.Initiation? || e.EnablePort? || e.DescriptorReport? || e.SadTimer? || e.ArcTimer? || e.Termination?
    ensures Next(s, e).probe == s.probe
  {
    match e
    case Initiation(status, bitstream) => InitiationLeavesProbe(s, status, bitstream);
    case EnablePort(enable, system, bitstream) => EnablePortLeavesProbe(s, enable, system, bitstream);
    case DescriptorReport(report) => DescriptorsLeaveProbe(s, report);
    case SadTimer => DescriptorsLeaveProbe(s, None);
    case ArcTimer(earc) => DetectionLeavesProbe(s, earc);
    case Termination(status) => TerminationLeavesProbe(s, status);
  }

  lemma NextAsks(s: State, e: Event)
    requires Asking(s) && !Aborts(e)
    ensures StillAsking(s, Next(s, e), if e.PowerTimer? then 1 else 0)
    ensures e.PowerTimer? && !Next(s, e).probe.confirmed ==> Next(s, e).probe.powerRetries < POWER_TRIES
  {
    match e
    case PowerTimer(_) => ExpiryAsks(s);
    case Initiation(_, _) => AudioLeavesProbe(s, e);
    case EnablePort(_, _, _) => AudioLeavesProbe(s, e);
    case DescriptorReport(_) => AudioLeavesProbe(s, e);
    case SadTimer => AudioLeavesProbe(s, e);
    case ArcTimer(_) => AudioLeavesProbe(s, e);
    case Termination(_) => AudioLeavesProbe(s, e);
    case DevicePowerStatus(power, earc) => StatusKeepsAsking(s, power, earc);
    case SystemAudioMode(_) => DroppingKeepsAsking(s, e);
    case CecStatus(_) => DroppingKeepsAsking(s, e);
    case HdmiInHotPlug(_, _) => DroppingKeepsAsking(s, e);
    case GetConnectedPorts(_) => DroppingKeepsAsking(s, e);
    case _ =>
  }

  function PowerExpiries(events: seq<Event>): nat {
    if events == [] then 0 else (if events[0].PowerTimer? then 1 else 0) + PowerExpiries(events[1..])
  }

  predicate ConfirmedDuring(s: State, events: seq<Event>)
    decreases |events|
  {
    s.probe.confirmed || (events != [] && ConfirmedDuring(Next(s, events[0]), events[1..]))
  }

  /** While a device is asked for, it is confirmed no later than the fifth expiry of the power
      timer, whatever happens in between, unless it is lost or all is set up anew. */
  lemma {:induction false} ConfirmedWithinFiveExpiries(s: State, events: seq<Event>)
    requires Asking(s) && (forall e :: e in events ==> !Aborts(e))
    requires PowerExpiries(events) >= ExpiriesLeft(s)
    ensures ConfirmedDuring(s, events)
    decreases |events|
  {
    if events != [] {
      assert events[0] in events;
      NextAsks(s, events[0]);
      var t := Next(s, events[0]);
      if t.probe.confirmed {
        assert ConfirmedDuring(t, events[1..]);
      } else {
        ConfirmedWithinFiveExpiries(t, events[1..]);
      }
    }
  }

  // ---------------------------------------------------------------- the failing run

  lemma DeviceIsSilent()
    ensures var s := After(INIT, [DeviceStatus(true), DevicePowerStatus(ReportOn, false), DetectTimer(true)]);
            Unconfirmed(s) && s.probe.power == PowerOn && s.probe.powerRetries == 0
  {
  }

  /** The power timer never asks a device again that reported being on before the detection timer
      expired: no number of expiries confirms it, and every initiation is ignored. */
  lemma ReportedDeviceIsNeverConfirmed(n: nat, status: Option<bool>, bitstream: bool)
    ensures var s := After(INIT, [DeviceStatus(true), DevicePowerStatus(ReportOn, false), DetectTimer(true)]);
            Expire(s, n) == s && OnInitiation(s, status, bitstream) == s
  {
    DeviceIsSilent();
    SilenceLasts(After(INIT, [DeviceStatus(true), DevicePowerStatus(ReportOn, false), DetectTimer(true)]), n);
  }
}
