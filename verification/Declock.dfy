/** The CPU declocking ladder as a function of the sampled temperatures. */
module Declock {
  import opened Thermal

  datatype Speed = Minimal | Scaled | Normal

  function Rank(s: Speed): nat {
    match s case Minimal => 0 case Scaled => 1 case Normal => 2
  }

  /** The current speed and the monitor time. */
  datatype Clocking = Clocking(speed: Speed, since: int)

  function DeclockStep(th: Thresholds, grace: int, c: Clocking, s: Sample): Clocking {
    var waited := s.time - c.since >= grace;
    if s.temp >= th.critical then Clocking(Minimal, s.time)
    else if s.temp >= th.concern then Clocking(if c.speed == Normal then Scaled else c.speed, s.time)
    else if s.temp > th.safe then
      if c.speed != Minimal then c.(since := s.time)
      else if waited then Clocking(Scaled, s.time) else c
    else if c.speed != Normal && waited then c.(speed := Normal) else c
  }

  function ClockAfter(th: Thresholds, grace: int, h: seq<Sample>): Clocking {
    if h == [] then Clocking(Normal, 0)
    else
      var k := |h| - 1;
      DeclockStep(th, grace, ClockAfter(th, grace, h[..k]), h[k])
  }

  predicate Hot(th: Thresholds, temp: int) {
    temp >= th.concern || temp >= th.critical
  }

  predicate RaisedAt(th: Thresholds, grace: int, h: seq<Sample>, k: nat)
    requires k < |h|
  {
    Rank(ClockAfter(th, grace, h[..k + 1]).speed) > Rank(ClockAfter(th, grace, h[..k]).speed)
  }

  lemma ClockAppend(th: Thresholds, grace: int, h: seq<Sample>, s: Sample)
    ensures ClockAfter(th, grace, h + [s]) == DeclockStep(th, grace, ClockAfter(th, grace, h), s)
  {
    assert (h + [s])[..|h|] == h;
  }

  lemma RaisedLocally(th: Thresholds, grace: int, h: seq<Sample>, s: Sample, k: nat)
    requires k < |h|
    ensures RaisedAt(th, grace, h + [s], k) == RaisedAt(th, grace, h, k)
  {
    assert (h + [s])[..k + 1] == h[..k + 1] && (h + [s])[..k] == h[..k];
  }

  lemma RaisedLast(th: Thresholds, grace: int, h: seq<Sample>, s: Sample)
    ensures RaisedAt(th, grace, h + [s], |h|) <==>
            Rank(DeclockStep(th, grace, ClockAfter(th, grace, h), s).speed) > Rank(ClockAfter(th, grace, h).speed)
  {
    assert (h + [s])[..|h| + 1] == h + [s] && (h + [s])[..|h|] == h;
  }

  /** What the monitor time remembers: no hot sample and, at the middle speed, no sample
      above safe is younger than it. */
  predicate SamplesRemembered(th: Thresholds, h: seq<Sample>, c: Clocking) {
    && (c.speed != Normal ==> h != [] && c.since <= h[|h| - 1].time)
    && (forall i :: 0 <= i < |h| && Hot(th, h[i].temp) ==> h[i].time <= c.since)
    && (forall i :: 0 <= i < |h| && c.speed == Scaled && h[i].temp > th.safe ==> h[i].time <= c.since)
  }

  lemma {:induction false} MonitorRemembersSamples(th: Thresholds, grace: int, h: seq<Sample>)
    requires Monotone(h)
    ensures SamplesRemembered(th, h, ClockAfter(th, grace, h))
  {
    if h != [] {
      var k := |h| - 1;
      MonitorRemembersSamples(th, grace, h[..k]);
      forall i | 0 <= i < k
        ensures h[i].time <= h[k].time && h[..k][i] == h[i]
      {
      }
    }
  }

  /** Nor is a raise, unless the speed is back to normal. */
  lemma {:induction false} MonitorRemembersRaise(th: Thresholds, grace: int, h: seq<Sample>, i: nat)
    requires Monotone(h) && i < |h| && RaisedAt(th, grace, h, i)
    ensures ClockAfter(th, grace, h).speed != Normal ==> h[i].time <= ClockAfter(th, grace, h).since
  {
    var k := |h| - 1;
    var before, s := h[..k], h[k];
    assert h == before + [s];
    ClockAppend(th, grace, before, s);
    if i < k {
      RaisedLocally(th, grace, before, s, i);
      MonitorRemembersRaise(th, grace, before, i);
      assert h[i].time <= s.time;
    } else {
      RaisedLast(th, grace, before, s);
    }
  }

  /** For every run with a monotone clock: the speed is raised only after a grace interval
      without a hot sample, and to normal from the middle speed only after one in which every
      sample was safe. */
  lemma RaiseNeedsCoolInterval(th: Thresholds, grace: int, h: seq<Sample>, k: nat, i: nat)
    requires Monotone(h) && k < |h| && RaisedAt(th, grace, h, k)
    requires i <= k && h[i].time > h[k].time - grace
    ensures !Hot(th, h[i].temp)
    ensures ClockAfter(th, grace, h[..k]).speed == Scaled ==> h[i].temp <= th.safe
  {
    var before := h[..k];
    assert h[..k + 1] == before + [h[k]];
    ClockAppend(th, grace, before, h[k]);
    MonitorRemembersSamples(th, grace, before);
    assert i < k ==> before[i] == h[i];
  }

  /** Any two raises are at least the grace interval apart. */
  lemma RaisesAreApart(th: Thresholds, grace: int, h: seq<Sample>, i: nat, k: nat)
    requires Monotone(h) && i < k < |h| && RaisedAt(th, grace, h, i) && RaisedAt(th, grace, h, k)
    ensures h[k].time - h[i].time >= grace
  {
    var before := h[..k];
    assert h[..k + 1] == before + [h[k]];
    ClockAppend(th, grace, before, h[k]);
    assert RaisedAt(th, grace, before, i) by {
      assert before[..i + 1] == h[..i + 1] && before[..i] == h[..i];
    }
    MonitorRemembersRaise(th, grace, before, i);
  }

  function Raises(th: Thresholds, grace: int, h: seq<Sample>): nat {
    if h == [] then 0
    else
      var k := |h| - 1;
      Raises(th, grace, h[..k]) + if RaisedAt(th, grace, h, k) then 1 else 0
  }

  /** At most `n` raises fit into `span`. */
  predicate Fits(n: int, grace: int, span: int) {
    (n - 1) * grace <= span
  }

  lemma OneMoreFits(n: int, grace: int, span: int, more: int)
    requires Fits(n, grace, span) && grace <= more
    ensures Fits(n + 1, grace, span + more)
  {
  }

  lemma RaisesAppend(th: Thresholds, grace: int, h: seq<Sample>, s: Sample)
    ensures Raises(th, grace, h + [s]) == Raises(th, grace, h) + if RaisedAt(th, grace, h + [s], |h|) then 1 else 0
  {
    assert (h + [s])[..|h|] == h;
  }

  /** The last raise of a run, and how far it is from the start. */
  lemma {:induction false} LastRaise(th: Thresholds, grace: int, h: seq<Sample>) returns (i: nat)
    requires Monotone(h) && grace > 0 && Raises(th, grace, h) > 0
    ensures i < |h| && RaisedAt(th, grace, h, i) && Fits(Raises(th, grace, h), grace, h[i].time - h[0].time)
  {
    var k := |h| - 1;
    if Raises(th, grace, h[..k]) == 0 {
      i := k;
    } else {
      i := LastRaise(th, grace, h[..k]);
      assert h == h[..k] + [h[k]];
      i := LaterRaise(th, grace, h[..k], h[k], i);
    }
  }

  lemma LaterRaise(th: Thresholds, grace: int, h: seq<Sample>, s: Sample, i: nat) returns (j: nat)
    requires Monotone(h + [s]) && i < |h| && RaisedAt(th, grace, h, i)
    requires Fits(Raises(th, grace, h), grace, h[i].time - h[0].time)
    ensures j <= |h| && RaisedAt(th, grace, h + [s], j)
    ensures Fits(Raises(th, grace, h + [s]), grace, (h + [s])[j].time - h[0].time)
  {
    var t := h + [s];
    RaisesAppend(th, grace, h, s);
    RaisedLocally(th, grace, h, s, i);
    if RaisedAt(th, grace, t, |h|) {
      j := |h|;
      RaisesAreApart(th, grace, t, i, j);
      OneMoreFits(Raises(th, grace, h), grace, h[i].time - h[0].time, s.time - h[i].time);
    } else {
      j := i;
    }
  }

  /** A run of length `L` raises the speed at most L / grace + 1 times. */
  lemma RaisesAreFew(th: Thresholds, grace: int, h: seq<Sample>)
    requires Monotone(h) && grace > 0 && Raises(th, grace, h) > 0
    ensures (Raises(th, grace, h) - 1) * grace <= h[|h| - 1].time - h[0].time
  {
    var i := LastRaise(th, grace, h);
    assert h[i].time <= h[|h| - 1].time;
  }

  /** Heat acts at once: a hot sample leaves the normal speed, a critical one leads to the
      minimal speed, and nothing but a hot sample ever lowers the speed. */
  lemma HeatActsAtOnce(th: Thresholds, grace: int, h: seq<Sample>, s: Sample)
    ensures var c0, c := ClockAfter(th, grace, h), ClockAfter(th, grace, h + [s]);
            && (Hot(th, s.temp) ==> c.speed != Normal && Rank(c.speed) <= Rank(c0.speed))
            && (s.temp >= th.critical ==> c.speed == Minimal)
            && (Rank(c.speed) < Rank(c0.speed) ==> Hot(th, s.temp))
  {
    ClockAppend(th, grace, h, s);
  }

  // ---------------------------------------------------------------- when the speed changes

  function SpeedAfter(th: Thresholds, grace: int, h: seq<Sample>): Speed {
    ClockAfter(th, grace, h).speed
  }

  /** Samples that start the wait for a higher speed anew: hot ones, and those above safe at the
      middle speed, which includes the one that led there from the minimal speed. */
  predicate Restarts(th: Thresholds, grace: int, h: seq<Sample>, j: nat)
    requires j < |h|
  {
    Hot(th, h[j].temp) || (h[j].temp > th.safe && SpeedAfter(th, grace, h[..j + 1]) == Scaled)
  }

  /** No such sample is younger than the grace interval at instant `now`. */
  predicate Waited(th: Thresholds, grace: int, h: seq<Sample>, now: int) {
    forall j: nat :: j < |h| && Restarts(th, grace, h, j) ==> now - h[j].time >= grace
  }

  /** The monitor time of a slowed CPU is that of the latest such sample. */
  ghost predicate SinceRestart(th: Thresholds, grace: int, h: seq<Sample>) {
    var c := ClockAfter(th, grace, h);
    c.speed != Normal ==>
      && (exists j: nat :: j < |h| && Restarts(th, grace, h, j) && h[j].time == c.since)
      && (forall j: nat :: j < |h| && Restarts(th, grace, h, j) ==> h[j].time <= c.since)
  }

  lemma RestartsLocally(th: Thresholds, grace: int, h: seq<Sample>, s: Sample)
    ensures forall j: nat :: j < |h| ==> (Restarts(th, grace, h + [s], j) <==> Restarts(th, grace, h, j))
    ensures Restarts(th, grace, h + [s], |h|) <==>
            Hot(th, s.temp) || (s.temp > th.safe && DeclockStep(th, grace, ClockAfter(th, grace, h), s).speed == Scaled)
  {
    forall j: nat | j < |h|
      ensures Restarts(th, grace, h + [s], j) <==> Restarts(th, grace, h, j)
    {
      assert (h + [s])[..j + 1] == h[..j + 1];
    }
    assert (h + [s])[..|h| + 1] == h + [s];
    ClockAppend(th, grace, h, s);
  }

  lemma {:induction false} MonitorIsLastRestart(th: Thresholds, grace: int, h: seq<Sample>)
    requires Monotone(h)
    ensures SinceRestart(th, grace, h)
  {
    if h != [] {
      var before, s := h[..|h| - 1], h[|h| - 1];
      assert h == before + [s];
      MonitorIsLastRestart(th, grace, before);
      ClockAppend(th, grace, before, s);
      RestartsLocally(th, grace, before, s);
      if Restarts(th, grace, h, |before|) {
        assert h[|before|].time == s.time;
      } else if SpeedAfter(th, grace, before) != Normal {
        var j: nat :| j < |before| && Restarts(th, grace, before, j) && before[j].time == ClockAfter(th, grace, before).since;
        assert Restarts(th, grace, h, j) && h[j] == before[j];
      }
    }
  }

  /** For every run with a monotone clock and every sample: the speed rises exactly when it was
      lowered, the sample is not hot, it is safe or the speed was minimal, and the grace interval
      has passed since every sample that starts the wait anew; it then rises to normal after a safe
      sample, else to the middle speed. It falls exactly at a critical sample, to minimal, and at
      another hot one from normal, to the middle speed. */
  lemma SpeedChangesExactlyWhen(th: Thresholds, grace: int, h: seq<Sample>, s: Sample)
    requires Monotone(h)
    ensures var was, now := SpeedAfter(th, grace, h), SpeedAfter(th, grace, h + [s]);
            && (Rank(now) > Rank(was) <==>
                  && was != Normal && !Hot(th, s.temp) && (s.temp <= th.safe || was == Minimal)
                  && Waited(th, grace, h, s.time))
            && (Rank(now) > Rank(was) ==> now == if s.temp <= th.safe then Normal else Scaled)
            && (Rank(now) < Rank(was) <==> (s.temp >= th.critical && was != Minimal) || (s.temp >= th.concern && was == Normal))
            && (Rank(now) < Rank(was) ==> now == if s.temp >= th.critical then Minimal else Scaled)
  {
    ClockAppend(th, grace, h, s);
    MonitorIsLastRestart(th, grace, h);
    if SpeedAfter(th, grace, h) != Normal {
      var j: nat :| j < |h| && Restarts(th, grace, h, j) && h[j].time == ClockAfter(th, grace, h).since;
      assert Waited(th, grace, h, s.time) <==> s.time - h[j].time >= grace;
    }
  }

  // ---------------------------------------------------------------- the speed comes back

  /** The `i`-th sample is at least a grace interval older than the last one. */
  predicate Lasts(h: seq<Sample>, i: nat, grace: int)
    requires i < |h|
  {
    h[|h| - 1].time - h[i].time >= grace
  }

  /** No sample from the `i`-th on is hot. */
  predicate CoolFrom(th: Thresholds, h: seq<Sample>, i: nat) {
    forall j :: i <= j < |h| ==> !Hot(th, h[j].temp)
  }

  predicate SafeFrom(th: Thresholds, h: seq<Sample>, i: nat) {
    CoolFrom(th, h, i) && forall j :: i <= j < |h| ==> h[j].temp <= th.safe
  }

  /** Has waited since `start` at the latest, and not for a grace interval yet. */
  predicate StillWaits(c: Clocking, safe: bool, start: int, now: int, grace: int) {
    c.speed == Minimal || (safe && c.speed == Scaled) ==> c.since <= start && now - start < grace
  }

  lemma CoolStep(th: Thresholds, grace: int, c: Clocking, s: Sample, safe: bool, start: int)
    requires !Hot(th, s.temp) && (safe ==> s.temp <= th.safe)
    requires c.speed == Minimal || (safe && c.speed == Scaled) ==> c.since <= start
    ensures StillWaits(DeclockStep(th, grace, c, s), safe, start, s.time, grace)
  {
  }

  /** While no sample is hot, a CPU still at the minimal speed has been waiting since before; and
      while all are safe, so has any slowed one. */
  lemma {:induction false} CoolingWaits(th: Thresholds, grace: int, h: seq<Sample>, i: nat)
    requires Monotone(h) && i < |h| && CoolFrom(th, h, i)
    ensures StillWaits(ClockAfter(th, grace, h), SafeFrom(th, h, i), h[i].time, h[|h| - 1].time, grace)
    decreases |h|
  {
    var before, s := h[..|h| - 1], h[|h| - 1];
    assert h == before + [s];
    ClockAppend(th, grace, before, s);
    if i < |before| {
      CoolingWaits(th, grace, before, i);
      assert SafeFrom(th, h, i) ==> SafeFrom(th, before, i);
    } else {
      MonitorRemembersSamples(th, grace, before);
    }
    CoolStep(th, grace, ClockAfter(th, grace, before), s, SafeFrom(th, h, i), h[i].time);
  }

  /** For every run with a monotone clock: once a grace interval passed in which every sample was
      safe, the speed is normal, and once one passed in which none was hot, it is not minimal. */
  lemma SpeedComesBack(th: Thresholds, grace: int, h: seq<Sample>, i: nat)
    requires Monotone(h) && i < |h| && Lasts(h, i, grace)
    ensures SafeFrom(th, h, i) ==> SpeedAfter(th, grace, h) == Normal
    ensures CoolFrom(th, h, i) ==> SpeedAfter(th, grace, h) != Minimal
  {
    if CoolFrom(th, h, i) {
      CoolingWaits(th, grace, h, i);
    }
  }
}
