/** Thermal protection: two grace-period monitors (deep sleep, reboot) and the CPU
    declocking ladder, as functions of the sampled temperatures. */
module Thermal {
  datatype Thresholds = Thresholds(critical: int, concern: int, safe: int)

  datatype Sample = Sample(time: int, temp: int)

  // ---------------------------------------------------------------- one monitor

  /** The zone flag and the monitor time. */
  datatype Zone = Zone(on: bool, since: int)

  const CALM: Zone := Zone(false, 0)

  function ZoneStep(th: Thresholds, z: Zone, s: Sample): Zone {
    if s.temp >= th.critical then z
    else if !z.on && s.temp >= th.concern then Zone(true, s.time)
    else if z.on && s.temp < th.safe then z.(on := false)
    else z
  }

  /** The zone after the samples of a run. */
  function ZoneAfter(th: Thresholds, h: seq<Sample>): Zone {
    if h == [] then CALM
    else
      var k := |h| - 1;
      ZoneStep(th, ZoneAfter(th, h[..k]), h[k])
  }

  lemma ZoneAppend(th: Thresholds, h: seq<Sample>, s: Sample)
    ensures ZoneAfter(th, h + [s]) == ZoneStep(th, ZoneAfter(th, h), s)
  {
    assert (h + [s])[..|h|] == h;
  }

  /** What a monitor asks for at the last sample: at once, or because the grace period is over. */
  predicate Forced(th: Thresholds, s: Sample) {
    s.temp >= th.critical
  }

  predicate GraceOver(z: Zone, now: int, grace: int) {
    z.on && now - z.since >= grace
  }

  // ---------------------------------------------------------------- what a zone means

  predicate Enters(th: Thresholds, temp: int) {
    th.concern <= temp < th.critical
  }

  predicate Keeps(th: Thresholds, temp: int) {
    temp >= th.safe || temp >= th.critical
  }

  /** An episode that began at sample `i` is still going on at the end of `h`. */
  predicate Episode(th: Thresholds, h: seq<Sample>, i: nat) {
    && i < |h|
    && Enters(th, h[i].temp)
    && forall j :: i < j < |h| ==> Keeps(th, h[j].temp)
  }

  ghost predicate InEpisode(th: Thresholds, h: seq<Sample>) {
    exists i: nat :: Episode(th, h, i)
  }

  /** No earlier sample begins an episode that is still going on. */
  ghost predicate Earliest(th: Thresholds, h: seq<Sample>, i: nat) {
    Episode(th, h, i) && forall e: nat :: e < i ==> !Episode(th, h, e)
  }

  /** Entering the zone does not leave it at the same time. */
  predicate Sane(th: Thresholds) {
    th.safe <= th.concern || th.critical <= th.concern
  }

  lemma EpisodeExtends(th: Thresholds, h: seq<Sample>, s: Sample, i: nat)
    ensures i < |h| ==> (Episode(th, h + [s], i) <==> Episode(th, h, i) && Keeps(th, s.temp))
    ensures i == |h| ==> (Episode(th, h + [s], i) <==> Enters(th, s.temp))
  {
    var g := h + [s];
    assert forall j :: 0 <= j < |h| ==> g[j] == h[j];
    assert g[|h|] == s;
    if i < |h| && Episode(th, g, i) {
      assert Keeps(th, g[|h|].temp);
      assert forall j :: i < j < |h| ==> Keeps(th, g[j].temp);
    }
  }

  /** The zone flag and monitor time refine the history: the zone is on exactly during an
      episode, and the monitor time is that of the earliest sample the episode can be
      counted from. */
  lemma {:induction false} ZoneIsEpisode(th: Thresholds, h: seq<Sample>)
    requires Sane(th)
    ensures ZoneAfter(th, h).on <==> InEpisode(th, h)
    ensures ZoneAfter(th, h).on ==>
              exists i: nat :: Earliest(th, h, i) && h[i].time == ZoneAfter(th, h).since
  {
    if h != [] {
      var k := |h| - 1;
      var before, s := h[..k], h[k];
      assert h == before + [s];
      ZoneIsEpisode(th, before);
      forall i: nat {
        EpisodeExtends(th, before, s, i);
      }
      if ZoneAfter(th, before).on && Keeps(th, s.temp) {
        var i: nat :| Earliest(th, before, i) && before[i].time == ZoneAfter(th, before).since;
        assert Earliest(th, h, i);
      } else if Enters(th, s.temp) {
        assert Earliest(th, h, k);
      }
    }
  }

  /** Without the order of thresholds the flag does not mean that: two equal samples that
      both enter and leave the zone switch it on and off again. */
  lemma ZoneIsEpisodeExactlyWhenSane(th: Thresholds)
    ensures Sane(th) <==> forall h :: ZoneAfter(th, h).on <==> InEpisode(th, h)
  {
    if Sane(th) {
      forall h
        ensures ZoneAfter(th, h).on <==> InEpisode(th, h)
      {
        ZoneIsEpisode(th, h);
      }
    } else {
      var s := Sample(0, th.concern);
      var h := [] + [s] + [s];
      ZoneAppend(th, [], s);
      ZoneAppend(th, [] + [s], s);
      assert !ZoneAfter(th, h).on;
      assert Episode(th, h, 1);
    }
  }

  predicate Monotone(h: seq<Sample>) {
    forall i, j :: 0 <= i < j < |h| ==> h[i].time <= h[j].time
  }

  /** The grace period is over exactly when some sample that the episode can be counted from
      is old enough. */
  lemma GraceOverMeansOldEpisode(th: Thresholds, h: seq<Sample>, grace: int)
    requires Sane(th) && Monotone(h) && h != []
    ensures GraceOver(ZoneAfter(th, h), h[|h| - 1].time, grace) <==>
            exists i: nat :: Episode(th, h, i) && h[|h| - 1].time - h[i].time >= grace
  {
    ZoneIsEpisode(th, h);
    var z, now := ZoneAfter(th, h), h[|h| - 1].time;
    if i: nat :| Episode(th, h, i) && now - h[i].time >= grace {
      var first: nat :| Earliest(th, h, first) && h[first].time == z.since;
      assert first <= i;
    }
  }

  // ---------------------------------------------------------------- both monitors

  /** A poll: a sample, and the grace interval both monitors use at that time; 0 disables them. */
  datatype Poll = Poll(sample: Sample, grace: nat)

  /** The samples both monitors have looked at. */
  function Seen(polls: seq<Poll>): seq<Sample> {
    if polls == [] then []
    else
      var k := |polls| - 1;
      Seen(polls[..k]) + if polls[k].grace == 0 then [] else [polls[k].sample]
  }

  /** Whether the monitor with these thresholds acts at poll `k`. */
  predicate Acts(th: Thresholds, polls: seq<Poll>, k: nat)
    requires k < |polls|
  {
    var p := polls[k];
    p.grace > 0 && (Forced(th, p.sample) || GraceOver(ZoneOf(th, polls[..k + 1]), p.sample.time, p.grace))
  }

  predicate PollsMonotone(polls: seq<Poll>) {
    forall i, j :: 0 <= i < j < |polls| ==> polls[i].sample.time <= polls[j].sample.time
  }

  /** Deep sleep reacts no later than reboot, threshold by threshold. */
  predicate Earlier(deep: Thresholds, reboot: Thresholds) {
    deep.critical <= reboot.critical && deep.concern <= reboot.concern && deep.safe <= reboot.safe
  }

  /** Entering the reboot zone cannot at the same time leave the deep sleep zone, or forces
      deep sleep there or wherever the reboot zone is kept, or the two zones are the same. */
  predicate Covered(deep: Thresholds, reboot: Thresholds) {
    deep.safe <= reboot.concern || deep.critical <= reboot.concern || deep.critical <= reboot.safe || deep == reboot
  }

  /** A deep sleep request at poll `j`, not older than `since`. */
  predicate AskedAt(deep: Thresholds, polls: seq<Poll>, j: nat, since: int) {
    j < |polls| && Acts(deep, polls, j) && since <= polls[j].sample.time
  }

  lemma {:induction false} ActsLocally(th: Thresholds, polls: seq<Poll>, p: Poll, k: nat)
    requires k < |polls|
    ensures Acts(th, polls + [p], k) == Acts(th, polls, k)
  {
    assert (polls + [p])[..k + 1] == polls[..k + 1];
  }

  /** The zone after a run of polls, and how one more poll changes it. */
  function ZoneOf(th: Thresholds, polls: seq<Poll>): Zone {
    ZoneAfter(th, Seen(polls))
  }

  lemma ZoneOfAppend(th: Thresholds, polls: seq<Poll>, p: Poll)
    ensures ZoneOf(th, polls + [p]) == if p.grace == 0 then ZoneOf(th, polls) else ZoneStep(th, ZoneOf(th, polls), p.sample)
  {
    assert (polls + [p])[..|polls|] == polls;
    assert Seen(polls) + [] == Seen(polls);
    ZoneAppend(th, Seen(polls), p.sample);
  }

  /** The monitor time is never in the future. */
  lemma {:induction false} ZoneIsRecent(th: Thresholds, polls: seq<Poll>)
    requires PollsMonotone(polls)
    ensures ZoneOf(th, polls).on ==> polls != [] && ZoneOf(th, polls).since <= polls[|polls| - 1].sample.time
  {
    if polls != [] {
      var k := |polls| - 1;
      assert polls == polls[..k] + [polls[k]];
      ZoneOfAppend(th, polls[..k], polls[k]);
      ZoneIsRecent(th, polls[..k]);
      assert k > 0 ==> polls[k - 1].sample.time <= polls[k].sample.time;
    }
  }

  lemma StepCovers(deep: Thresholds, reboot: Thresholds, d: Zone, r: Zone, s: Sample)
    requires Earlier(deep, reboot) && (deep.safe <= reboot.concern || deep.critical <= reboot.concern)
    requires (r.on ==> d.on && d.since <= r.since) && (d.on ==> d.since <= s.time)
    ensures var d', r' := ZoneStep(deep, d, s), ZoneStep(reboot, r, s);
            r'.on ==> (d'.on && d'.since <= r'.since) || (Forced(deep, s) && r'.since <= s.time)
  {
  }

  lemma AskedStays(deep: Thresholds, polls: seq<Poll>, p: Poll, j: nat, since: int)
    requires AskedAt(deep, polls, j, since)
    ensures AskedAt(deep, polls + [p], j, since)
  {
    ActsLocally(deep, polls, p, j);
  }

  lemma ForcedIsAsked(deep: Thresholds, polls: seq<Poll>, p: Poll)
    requires p.grace > 0 && Forced(deep, p.sample)
    ensures AskedAt(deep, polls + [p], |polls|, p.sample.time)
  {
  }

  /** While the reboot zone is on, either the deep sleep zone has been on for at least as
      long, or deep sleep has been requested, at poll `j`, since the reboot zone was entered. */
  lemma {:induction false} DeepSleepCoversReboot(deep: Thresholds, reboot: Thresholds, polls: seq<Poll>) returns (j: nat)
    requires Earlier(deep, reboot) && PollsMonotone(polls)
    requires deep.safe <= reboot.concern || deep.critical <= reboot.concern
    ensures var r, d := ZoneOf(reboot, polls), ZoneOf(deep, polls);
            r.on ==> (d.on && d.since <= r.since) || AskedAt(deep, polls, j, r.since)
  {
    j := 0;
    if polls != [] {
      var before, p := polls[..|polls| - 1], polls[|polls| - 1];
      assert polls == before + [p];
      j := DeepSleepCoversReboot(deep, reboot, before);
      ZoneOfAppend(reboot, before, p);
      ZoneOfAppend(deep, before, p);
      ZoneIsRecent(deep, before);
      var r, d := ZoneOf(reboot, before), ZoneOf(deep, before);
      if r.on && !(d.on && d.since <= r.since) {
        AskedStays(deep, before, p, j, r.since);
      } else if p.grace > 0 {
        StepCovers(deep, reboot, d, r, p.sample);
        if Forced(deep, p.sample) {
          j := |before|;
          ForcedIsAsked(deep, before, p);
        }
      }
    }
  }

  /** Deep sleep was requested no earlier than the reboot zone was entered and no later than
      in poll `k` itself. */
  ghost predicate Announced(deep: Thresholds, reboot: Thresholds, polls: seq<Poll>, k: nat)
    requires k < |polls|
  {
    var r := ZoneOf(reboot, polls[..k + 1]);
    exists j: nat :: j <= k && Acts(deep, polls, j) && (r.on ==> r.since <= polls[j].sample.time)
  }

  /** For every run of polls, thermal protection never reboots unannounced. */
  lemma RebootIsPrecededByDeepSleep(deep: Thresholds, reboot: Thresholds, polls: seq<Poll>, k: nat)
    requires Earlier(deep, reboot) && Covered(deep, reboot) && PollsMonotone(polls)
    requires k < |polls| && Acts(reboot, polls, k)
    ensures Announced(deep, reboot, polls, k)
  {
    var upTo, p := polls[..k + 1], polls[k];
    assert upTo == polls[..k] + [p];
    ZoneOfAppend(reboot, polls[..k], p);
    var r := ZoneOf(reboot, upTo);
    ZoneIsRecent(reboot, upTo);
    if Forced(deep, p.sample) || deep == reboot {
      assert Acts(deep, polls, k);
    } else if deep.safe <= reboot.concern || deep.critical <= reboot.concern {
      var j := DeepSleepCoversReboot(deep, reboot, upTo);
      if AskedAt(deep, upTo, j, r.since) {
        assert polls[..j + 1] == upTo[..j + 1];
        assert Acts(deep, polls, j);
      } else {
        assert Acts(deep, polls, k);
      }
    }
  }

  /** Two temperatures after which the deep sleep zone is on and the reboot zone is off. */
  function Prelude(deep: Thresholds, reboot: Thresholds): (int, int) {
    if deep.concern < reboot.concern then (deep.concern - 1, deep.concern)
    else if deep.safe < reboot.safe then (deep.concern, deep.safe)
    else (deep.critical, deep.concern)
  }

  lemma PreludeZones(deep: Thresholds, reboot: Thresholds)
    requires Earlier(deep, reboot) && !Covered(deep, reboot)
    ensures var (t, u) := Prelude(deep, reboot);
            && ZoneStep(deep, ZoneStep(deep, CALM, Sample(0, t)), Sample(0, u)).on
            && !ZoneStep(reboot, ZoneStep(reboot, CALM, Sample(0, t)), Sample(0, u)).on
  {
  }

  lemma FourPolls(th: Thresholds, p: Poll, q: Poll, r: Poll, s: Poll)
    requires p.grace > 0 && q.grace > 0 && r.grace > 0 && s.grace > 0
    ensures var z := ZoneStep(th, ZoneStep(th, ZoneStep(th, CALM, p.sample), q.sample), r.sample);
            && ZoneOf(th, [] + [p] + [q] + [r]) == z
            && ZoneOf(th, [] + [p] + [q] + [r] + [s]) == ZoneStep(th, z, s.sample)
  {
    ZoneOfAppend(th, [], p);
    ZoneOfAppend(th, [] + [p], q);
    ZoneOfAppend(th, [] + [p] + [q], r);
    ZoneOfAppend(th, [] + [p] + [q] + [r], s);
  }

  /** After the prelude a sample that moves from the deep sleep zone into the reboot zone, and
      one that keeps the reboot zone until the grace period is over. */
  function Evasion(deep: Thresholds, reboot: Thresholds, grace: nat): seq<Poll> {
    var (t, u) := Prelude(deep, reboot);
    [] + [Poll(Sample(0, t), grace)] + [Poll(Sample(0, u), grace)]
    + [Poll(Sample(1, reboot.concern), grace)]
    + [Poll(Sample(1 + grace, reboot.safe), grace)]
  }

  /** Thresholds that are merely ordered are not enough: unless they are covered, four polls
      lead to an unannounced reboot. */
  lemma UncoveredRebootsUnannounced(deep: Thresholds, reboot: Thresholds, grace: nat)
    requires Earlier(deep, reboot) && !Covered(deep, reboot) && grace > 0
    ensures var polls := Evasion(deep, reboot, grace);
            PollsMonotone(polls) && Acts(reboot, polls, 3) && !Announced(deep, reboot, polls, 3)
  {
    var polls := Evasion(deep, reboot, grace);
    var p0, p1, p2, p3 := polls[0], polls[1], polls[2], polls[3];
    assert polls[..3] == [] + [p0] + [p1] + [p2] && polls[..4] == [] + [p0] + [p1] + [p2] + [p3];
    FourPolls(deep, p0, p1, p2, p3);
    FourPolls(reboot, p0, p1, p2, p3);
    PreludeZones(deep, reboot);
    assert !ZoneOf(deep, polls[..3]).on && ZoneOf(reboot, polls[..4]) == Zone(true, 1);
    assert !Acts(deep, polls, 2) && !Acts(deep, polls, 3);
  }

  /** So of ordered thresholds exactly the covered ones make deep sleep come before every
      reboot, in every run. */
  lemma DeepSleepComesFirstExactlyWhenCovered(deep: Thresholds, reboot: Thresholds)
    requires Earlier(deep, reboot)
    ensures Covered(deep, reboot) <==>
            forall polls: seq<Poll>, k: nat ::
              PollsMonotone(polls) && k < |polls| && Acts(reboot, polls, k) ==> Announced(deep, reboot, polls, k)
  {
    if Covered(deep, reboot) {
      forall polls: seq<Poll>, k: nat | PollsMonotone(polls) && k < |polls| && Acts(reboot, polls, k)
        ensures Announced(deep, reboot, polls, k)
      {
        RebootIsPrecededByDeepSleep(deep, reboot, polls, k);
      }
    } else {
      UncoveredRebootsUnannounced(deep, reboot, 1);
    }
  }
}
