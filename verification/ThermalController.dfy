/** The thermal controller: its zone flags, monitor times and CPU speed, polled in a loop. */
module ThermalControllers {
  import opened PowerTypes
  import opened Thermal
  import opened Declock

  /** The two built-in threshold tables. */
  const REBOOT: Thresholds := Thresholds(120, 120, 110)
  const DEEPSLEEP: Thresholds := Thresholds(115, 110, 100)
  const REBOOT_MFR: Thresholds := Thresholds(110, 102, 100)
  const DEEPSLEEP_MFR: Thresholds := Thresholds(105, 100, 90)

  /** With either table no run of polls reboots unannounced. */
  lemma BuiltInTablesAnnounce(mfr: bool, polls: seq<Poll>, k: nat)
    requires PollsMonotone(polls) && k < |polls|
    ensures var deep, reboot := if mfr then DEEPSLEEP_MFR else DEEPSLEEP, if mfr then REBOOT_MFR else REBOOT;
            Acts(reboot, polls, k) ==> Announced(deep, reboot, polls, k)
  {
    var deep, reboot := if mfr then DEEPSLEEP_MFR else DEEPSLEEP, if mfr then REBOOT_MFR else REBOOT;
    if Acts(reboot, polls, k) {
      RebootIsPrecededByDeepSleep(deep, reboot, polls, k);
    }
  }

  lemma {:induction false} RebootZoneIsNeverEntered(h: seq<Sample>)
    ensures !ZoneAfter(REBOOT, h).on
  {
    if h != [] {
      RebootZoneIsNeverEntered(h[..|h| - 1]);
    }
  }

  /** The first table has the same concern and critical level for reboot: every reboot is an
      immediate one, and happens exactly at polls that reach that level. */
  lemma StandardRebootsAreImmediate(polls: seq<Poll>, k: nat)
    requires k < |polls|
    ensures Acts(REBOOT, polls, k) <==> polls[k].grace > 0 && polls[k].sample.temp >= 120
  {
    RebootZoneIsNeverEntered(Seen(polls[..k + 1]));
  }

  /** What a poll asked for: immediate and graced requests, and a new CPU speed. */
  datatype Requests = Requests(forced: bool, graceOver: bool) {
    predicate Any() {
      forced || graceOver
    }
  }

  /** A monitor that is switched off looks at no sample. */
  function Noted(seen: seq<Sample>, grace: int, sample: Sample): seq<Sample> {
    if grace == 0 then seen else seen + [sample]
  }

  /** What a monitor asks for when its zone, after the sample, is `zone`. */
  function Decision(th: Thresholds, grace: int, zone: Zone, sample: Sample): Requests {
    if grace == 0 then Requests(false, false)
    else Requests(Forced(th, sample), GraceOver(zone, sample.time, grace))
  }

  class ThermalController {
    const rebootThreshold: Thresholds
    const deepSleepThreshold: Thresholds
    const declockThreshold: Thresholds
    const declockGrace: int
    var rebootGrace: int
    var deepSleepGrace: int
    var temperature: int
    var rebootZone: bool
    var rebootMonitor: int
    var deepSleepZone: bool
    var deepSleepMonitor: int
    var cpuSpeed: Speed
    var declockMonitor: int

    ghost const coupled: bool             // both monitors were given the same grace interval
    ghost var rebootSeen: seq<Sample>     // the samples each check has looked at
    ghost var deepSleepSeen: seq<Sample>
    ghost var declockSeen: seq<Sample>
    ghost var polls: seq<Poll>

    ghost predicate RebootZoned()
      reads this`rebootZone, this`rebootMonitor, this`rebootSeen
    {
      Zone(rebootZone, rebootMonitor) == ZoneAfter(rebootThreshold, rebootSeen)
    }

    ghost predicate DeepSleepZoned()
      reads this`deepSleepZone, this`deepSleepMonitor, this`deepSleepSeen
    {
      Zone(deepSleepZone, deepSleepMonitor) == ZoneAfter(deepSleepThreshold, deepSleepSeen)
    }

    ghost predicate Clocked()
      reads this`cpuSpeed, this`declockMonitor, this`declockSeen
    {
      Clocking(cpuSpeed, declockMonitor) == ClockAfter(declockThreshold, declockGrace, declockSeen)
    }

    ghost predicate Valid()
      reads this
    {
      && RebootZoned() && DeepSleepZoned() && Clocked()
      && (coupled ==> 0 <= rebootGrace == deepSleepGrace)
    }

    predicate DeepSleepGoesFirst() {
      Earlier(deepSleepThreshold, rebootThreshold) && Covered(deepSleepThreshold, rebootThreshold)
    }

    /** The run of polls explains what both monitors have seen. */
    ghost predicate Polled()
      reads this
    {
      coupled ==> rebootSeen == Seen(polls) && deepSleepSeen == Seen(polls)
    }

    constructor (reboot: Thresholds, rebootGrace: int, deepSleep: Thresholds, deepSleepGrace: int,
                 declock: Thresholds, declockGrace: int)
      ensures Valid() && Polled() && polls == []
      ensures coupled <==> 0 <= rebootGrace == deepSleepGrace
    {
      this.rebootThreshold, this.deepSleepThreshold, this.declockThreshold := reboot, deepSleep, declock;
      this.rebootGrace, this.deepSleepGrace, this.declockGrace := rebootGrace, deepSleepGrace, declockGrace;
      coupled := 0 <= rebootGrace == deepSleepGrace;
      temperature, rebootZone, rebootMonitor := 0, false, 0;
      deepSleepZone, deepSleepMonitor := false, 0;
      cpuSpeed, declockMonitor := Normal, 0;
      rebootSeen, deepSleepSeen, declockSeen, polls := [], [], [], [];
    }

    /** A negative interval is refused; otherwise both monitors use the new one. */
    method SetOvertempGraceInterval(graceInterval: int) returns (status: Status)
      requires Valid()
      modifies this`rebootGrace, this`deepSleepGrace
      ensures Valid()
      ensures status == if graceInterval >= 0 then ErrorNone else ErrorInvalidParameter
      ensures status == ErrorNone ==> rebootGrace == deepSleepGrace == graceInterval
      ensures status != ErrorNone ==> rebootGrace == old(rebootGrace) && deepSleepGrace == old(deepSleepGrace)
    {
      if graceInterval >= 0 {
        rebootGrace := graceInterval;
        deepSleepGrace := graceInterval;
        status := ErrorNone;
      } else {
        status := ErrorInvalidParameter;
      }
    }

    /** The requests for a reboot: at once at the critical level, and after the grace interval in
        the zone. */
    ghost predicate RebootDue(r: Requests, now: int)
      reads this`rebootGrace, this`temperature, this`rebootZone, this`rebootMonitor
    {
      && (r.forced <==> rebootGrace != 0 && temperature >= rebootThreshold.critical)
      && (r.graceOver <==> rebootGrace != 0 && rebootZone && now - rebootMonitor >= rebootGrace)
    }

    ghost predicate DeepSleepDue(r: Requests, now: int)
      reads this`deepSleepGrace, this`temperature, this`deepSleepZone, this`deepSleepMonitor
    {
      && (r.forced <==> deepSleepGrace != 0 && temperature >= deepSleepThreshold.critical)
      && (r.graceOver <==> deepSleepGrace != 0 && deepSleepZone && now - deepSleepMonitor >= deepSleepGrace)
    }

    method RebootIfNeeded(now: int) returns (r: Requests)
      requires RebootZoned()
      modifies this
      ensures unchanged(this`rebootGrace, this`deepSleepGrace, this`temperature, this`deepSleepZone,
                        this`deepSleepMonitor, this`cpuSpeed, this`declockMonitor,
                        this`deepSleepSeen, this`declockSeen, this`polls)
      ensures RebootZoned()
      ensures rebootSeen == Noted(old(rebootSeen), rebootGrace, Sample(now, temperature))
      ensures r == Decision(rebootThreshold, rebootGrace, ZoneAfter(rebootThreshold, rebootSeen), Sample(now, temperature))
      ensures RebootDue(r, now)
    {
      r := Requests(false, false);
      if rebootGrace == 0 {
        return;
      }
      ZoneAppend(rebootThreshold, rebootSeen, Sample(now, temperature));
      rebootSeen := rebootSeen + [Sample(now, temperature)];
      if temperature >= rebootThreshold.critical {
        r := r.(forced := true);
      } else if !rebootZone && temperature >= rebootThreshold.concern {
        rebootMonitor := now;
        rebootZone := true;
      } else if rebootZone && temperature < rebootThreshold.safe {
        rebootZone := false;
      }
      if rebootZone {
        var difftime := now - rebootMonitor;
        if difftime >= rebootGrace {
          r := r.(graceOver := true);
        }
      }
    }

    method DeepSleepIfNeeded(now: int) returns (r: Requests)
      requires DeepSleepZoned()
      modifies this
      ensures unchanged(this`rebootGrace, this`deepSleepGrace, this`temperature, this`rebootZone,
                        this`rebootMonitor, this`cpuSpeed, this`declockMonitor, this`rebootSeen,
                        this`declockSeen, this`polls)
      ensures DeepSleepZoned()
      ensures deepSleepSeen == Noted(old(deepSleepSeen), deepSleepGrace, Sample(now, temperature))
      ensures r == Decision(deepSleepThreshold, deepSleepGrace, ZoneAfter(deepSleepThreshold, deepSleepSeen), Sample(now, temperature))
      ensures DeepSleepDue(r, now)
    {
      r := Requests(false, false);
      if deepSleepGrace == 0 {
        return;
      }
      ZoneAppend(deepSleepThreshold, deepSleepSeen, Sample(now, temperature));
      deepSleepSeen := deepSleepSeen + [Sample(now, temperature)];
      if temperature >= deepSleepThreshold.critical {
        r := r.(forced := true);
      } else if !deepSleepZone && temperature >= deepSleepThreshold.concern {
        deepSleepMonitor := now;
        deepSleepZone := true;
      } else if deepSleepZone && temperature < deepSleepThreshold.safe {
        deepSleepZone := false;
      }
      if deepSleepZone {
        var difftime := now - deepSleepMonitor;
        if difftime >= deepSleepGrace {
          r := r.(graceOver := true);
        }
      }
    }

    method DeclockIfNeeded(now: int)
      requires Clocked()
      modifies this
      ensures unchanged(this`rebootGrace, this`deepSleepGrace, this`temperature, this`rebootZone,
                        this`rebootMonitor, this`deepSleepZone, this`deepSleepMonitor,
                        this`rebootSeen, this`deepSleepSeen, this`polls)
      ensures Clocked()
      ensures declockSeen == Noted(old(declockSeen), declockGrace, Sample(now, temperature))
      ensures declockGrace == 0 ==> cpuSpeed == old(cpuSpeed)
      ensures declockGrace != 0 ==> SpeedIsBack()
    {
      if declockGrace == 0 {
        return;
      }
      ghost var sample := Sample(now, temperature);
      Declocking(now);
      ClockAppend(declockThreshold, declockGrace, declockSeen, sample);
      declockSeen := declockSeen + [sample];
      SpeedIsRestored();
    }

    /** The speed is normal after a grace interval of safe samples, and not minimal after one
        without a hot sample. */
    ghost predicate SpeedIsBack()
      reads this`cpuSpeed, this`declockSeen
    {
      Monotone(declockSeen) ==>
        forall i: nat :: i < |declockSeen| && Lasts(declockSeen, i, declockGrace) ==>
          && (SafeFrom(declockThreshold, declockSeen, i) ==> cpuSpeed == Normal)
          && (CoolFrom(declockThreshold, declockSeen, i) ==> cpuSpeed != Minimal)
    }

    lemma SpeedIsRestored()
      requires Clocked()
      ensures SpeedIsBack()
    {
      if Monotone(declockSeen) {
        forall i: nat | i < |declockSeen| && Lasts(declockSeen, i, declockGrace) {
          SpeedComesBack(declockThreshold, declockGrace, declockSeen, i);
        }
      }
    }

    /** The ladder itself: one step of `DeclockStep`. */
    method Declocking(now: int)
      modifies this
      ensures unchanged(this`rebootGrace, this`deepSleepGrace, this`temperature, this`rebootZone,
                        this`rebootMonitor, this`deepSleepZone, this`deepSleepMonitor,
                        this`rebootSeen, this`deepSleepSeen, this`declockSeen, this`polls)
      ensures Clocking(cpuSpeed, declockMonitor) ==
              DeclockStep(declockThreshold, declockGrace, old(Clocking(cpuSpeed, declockMonitor)), Sample(now, temperature))
    {
      if temperature >= declockThreshold.critical {
        if cpuSpeed != Minimal {
          cpuSpeed := Minimal;
        }
        declockMonitor := now;
      } else if temperature >= declockThreshold.concern {
        if cpuSpeed == Normal {
          cpuSpeed := Scaled;
        }
        declockMonitor := now;
      } else if temperature > declockThreshold.safe {
        if cpuSpeed == Minimal {
          var difftime := now - declockMonitor;
          if difftime >= declockGrace {
            cpuSpeed := Scaled;
            declockMonitor := now;
          }
        } else {
          declockMonitor := now;
        }
      } else if cpuSpeed != Normal {
        var difftime := now - declockMonitor;
        if difftime >= declockGrace {
          cpuSpeed := Normal;
        }
      }
    }

    /** One iteration of the polling loop; a failed reading skips all checks. Deep sleep is
        checked before reboot, so a reboot never comes unannounced. */
    method Poll(now: int, reading: Option<int>) returns (deepSleep: Requests, reboot: Requests)
      requires Valid() && Polled()
      modifies this
      ensures unchanged(this`rebootGrace, this`deepSleepGrace)
      ensures Valid() && Polled()
      ensures reading == None ==>
                && polls == old(polls) && declockSeen == old(declockSeen)
                && !deepSleep.Any() && !reboot.Any() && cpuSpeed == old(cpuSpeed)
      ensures reading.Some? ==>
                && rebootSeen == Noted(old(rebootSeen), rebootGrace, Sample(now, reading.value))
                && deepSleepSeen == Noted(old(deepSleepSeen), deepSleepGrace, Sample(now, reading.value))
                && declockSeen == Noted(old(declockSeen), declockGrace, Sample(now, reading.value))
                && temperature == reading.value && RebootDue(reboot, now) && DeepSleepDue(deepSleep, now)
      ensures reading.Some? && coupled ==>
                && polls == old(polls) + [Thermal.Poll(Sample(now, reading.value), rebootGrace)]
                && (deepSleep.Any() <==> Acts(deepSleepThreshold, polls, |old(polls)|))
                && (reboot.Any() <==> Acts(rebootThreshold, polls, |old(polls)|))
      ensures coupled && PollsMonotone(polls) && reboot.Any() && DeepSleepGoesFirst() ==>
                Announced(deepSleepThreshold, rebootThreshold, polls, |old(polls)|)
    {
      deepSleep, reboot := Requests(false, false), Requests(false, false);
      if reading.Some? {
        deepSleep, reboot := Check(now, reading.value);
        if coupled {
          RecordPoll(Sample(now, reading.value), deepSleep, reboot);
        }
      }
    }

    /** The checks of one poll, in their order. */
    method Check(now: int, reading: int) returns (deepSleep: Requests, reboot: Requests)
      requires Valid()
      modifies this
      ensures unchanged(this`rebootGrace, this`deepSleepGrace, this`polls)
      ensures Valid()
      ensures rebootSeen == Noted(old(rebootSeen), rebootGrace, Sample(now, reading))
      ensures deepSleepSeen == Noted(old(deepSleepSeen), deepSleepGrace, Sample(now, reading))
      ensures declockSeen == Noted(old(declockSeen), declockGrace, Sample(now, reading))
      ensures reboot == Decision(rebootThreshold, rebootGrace, ZoneAfter(rebootThreshold, rebootSeen),
                                 Sample(now, reading))
      ensures deepSleep == Decision(deepSleepThreshold, deepSleepGrace, ZoneAfter(deepSleepThreshold, deepSleepSeen),
                                    Sample(now, reading))
      ensures temperature == reading && RebootDue(reboot, now) && DeepSleepDue(deepSleep, now)
    {
      temperature := reading;
      deepSleep := DeepSleepIfNeeded(now);
      reboot := RebootIfNeeded(now);
      DeclockIfNeeded(now);
    }

    /** History only: the poll just made, and what follows from it. */
    ghost method RecordPoll(sample: Sample, deepSleep: Requests, reboot: Requests)
      requires coupled && rebootGrace >= 0
      requires var seen := Noted(Seen(polls), rebootGrace, sample);
               && rebootSeen == deepSleepSeen == seen
               && deepSleep == Decision(deepSleepThreshold, rebootGrace, ZoneAfter(deepSleepThreshold, seen), sample)
               && reboot == Decision(rebootThreshold, rebootGrace, ZoneAfter(rebootThreshold, seen), sample)
      modifies this`polls
      ensures polls == old(polls) + [Thermal.Poll(sample, rebootGrace)]
      ensures rebootSeen == deepSleepSeen == Seen(polls)
      ensures deepSleep.Any() <==> Acts(deepSleepThreshold, polls, |old(polls)|)
      ensures reboot.Any() <==> Acts(rebootThreshold, polls, |old(polls)|)
      ensures PollsMonotone(polls) && reboot.Any() && DeepSleepGoesFirst() ==>
                Announced(deepSleepThreshold, rebootThreshold, polls, |old(polls)|)
    {
      var k := |polls|;
      var p := Thermal.Poll(sample, rebootGrace);
      assert (polls + [p])[..k] == polls && (polls + [p])[..k + 1] == polls + [p];
      polls := polls + [p];
      if PollsMonotone(polls) && reboot.Any() && DeepSleepGoesFirst() {
        RebootIsPrecededByDeepSleep(deepSleepThreshold, rebootThreshold, polls, k);
      }
    }
  }
}
