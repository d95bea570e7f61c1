/** FPS statistics over collection windows. The history of calls determines the window, and
    the running figures are those of the window. */
module FrameRates {
  import opened PowerTypes

  const DEFAULT_MIN: int := 60
  const DEFAULT_MAX: int := -1
  const MIN_PERIOD_MS: int := 100
  const DEFAULT_PERIOD_MS: int := 10000

  /** What reaches the collector; refused updates are not part of the history. */
  datatype Event = Started | Updated(fps: nat) | Reported | Stopped

  datatype Report = Report(average: int, min: int, max: int)

  /** The samples of the current window: what was reported since collection started or last
      reported, preceded by the last sample before that report. */
  datatype Window = Window(carried: bool, samples: seq<nat>)

  function WindowOf(history: seq<Event>): Window {
    if history == [] then Window(false, [])
    else
      var k := |history| - 1;
      var w := WindowOf(history[..k]);
      match history[k]
      case Started => Window(false, [])
      case Updated(fps) => w.(samples := w.samples + [fps])
      case Reported => if w.samples == [] then w else Window(true, [Last(w.samples)])
      case Stopped => w
  }

  function Last(xs: seq<nat>): nat
    requires xs != []
  {
    xs[|xs| - 1]
  }

  function Sum(xs: seq<nat>): nat {
    if xs == [] then 0 else Sum(xs[..|xs| - 1]) + xs[|xs| - 1]
  }

  /** The least of the samples and of an upper start value. */
  function Least(xs: seq<nat>, start: int): int {
    if xs == [] then start
    else
      var rest := Least(xs[..|xs| - 1], start);
      if xs[|xs| - 1] < rest then xs[|xs| - 1] else rest
  }

  function Greatest(xs: seq<nat>, start: int): int {
    if xs == [] then start else Max(Greatest(xs[..|xs| - 1], start), xs[|xs| - 1])
  }

  /** A window that carries a sample starts its extremes from it, a fresh one from the defaults. */
  function WindowMin(w: Window): int {
    Least(w.samples, if w.carried && w.samples != [] then w.samples[0] else DEFAULT_MIN)
  }

  function WindowMax(w: Window): int {
    Greatest(w.samples, DEFAULT_MAX)
  }

  function ReportOf(w: Window): Report {
    if w.samples == [] then Report(-1, DEFAULT_MIN, DEFAULT_MAX)
    else Report(Sum(w.samples) / |w.samples|, WindowMin(w), WindowMax(w))
  }

  // ---------------------------------------------------------------- what reports mean

  lemma {:induction false} SumIsAtLeast(xs: seq<nat>, start: int)
    ensures |xs| * Least(xs, start) <= Sum(xs)
  {
    if xs != [] {
      var k := |xs| - 1;
      SumIsAtLeast(xs[..k], start);
      ScaleAndAdd(k, Least(xs, start), Least(xs[..k], start));
    }
  }

  lemma {:induction false} SumIsAtMost(xs: seq<nat>)
    ensures Sum(xs) <= |xs| * Greatest(xs, DEFAULT_MAX)
  {
    if xs != [] {
      var k := |xs| - 1;
      SumIsAtMost(xs[..k]);
      ScaleAndAdd(k, Greatest(xs[..k], DEFAULT_MAX), Greatest(xs, DEFAULT_MAX));
    }
  }

  lemma ScaleAndAdd(k: nat, a: int, b: int)
    requires a <= b
    ensures k * a <= k * b
    ensures (k + 1) * a == k * a + a && (k + 1) * b == k * b + b
  {
  }

  lemma DivBetween(total: nat, n: nat, lo: int, hi: int)
    requires n > 0 && n * lo <= total <= n * hi
    ensures lo <= total / n <= hi
  {
    var q := total / n;
    assert total == n * q + total % n;
    assert n * lo < n * (q + 1) && n * q <= n * hi;
  }

  /** In every window with samples the figures are ordered. */
  lemma ReportIsOrdered(w: Window)
    requires w.samples != []
    ensures var r := ReportOf(w); r.min <= r.average <= r.max
  {
    SumIsAtLeast(w.samples, if w.carried then w.samples[0] else DEFAULT_MIN);
    SumIsAtMost(w.samples);
    DivBetween(Sum(w.samples), |w.samples|, WindowMin(w), WindowMax(w));
  }

  /** The samples added up from the first on. */
  function Total(xs: seq<nat>): nat {
    if xs == [] then 0 else xs[0] + Total(xs[1..])
  }

  lemma {:induction false} SumIsTotal(xs: seq<nat>)
    ensures Sum(xs) == Total(xs)
    decreases |xs|
  {
    if xs != [] {
      var k := |xs| - 1;
      SumIsTotal(xs[..k]);
      assert xs == xs[..k] + [xs[k]];
      TotalAppend(xs[..k], xs[k]);
    }
  }

  lemma {:induction false} TotalAppend(xs: seq<nat>, x: nat)
    ensures Total(xs + [x]) == Total(xs) + x
    decreases |xs|
  {
    if xs == [] {
      assert ([] + [x])[1..] == [];
      assert Total([x][1..]) == 0;
    } else {
      assert (xs + [x])[1..] == xs[1..] + [x];
      TotalAppend(xs[1..], x);
    }
  }

  lemma DivIsRounded(total: nat, n: nat)
    requires n > 0
    ensures total / n * n <= total < (total / n + 1) * n
  {
    assert total == total / n * n + total % n;
  }

  /** The reported average is that of the samples, rounded down; a window without samples has
      none, and reports the defaults. */
  lemma AverageIsRounded(w: Window)
    ensures w.samples != [] ==>
              ReportOf(w).average * |w.samples| <= Total(w.samples) < (ReportOf(w).average + 1) * |w.samples|
    ensures w.samples == [] ==> ReportOf(w) == Report(-1, 60, -1)
  {
    if w.samples != [] {
      SumIsTotal(w.samples);
      DivIsRounded(Sum(w.samples), |w.samples|);
    }
  }

  lemma {:induction false} ExtremesAreAttained(xs: seq<nat>, start: int)
    requires xs != []
    ensures forall i :: 0 <= i < |xs| ==> Least(xs, start) <= xs[i] <= Greatest(xs, DEFAULT_MAX)
    ensures Least(xs, start) <= start && (Least(xs, start) == start || Least(xs, start) in xs)
    ensures Greatest(xs, DEFAULT_MAX) in xs
  {
    var k := |xs| - 1;
    assert xs == xs[..k] + [xs[k]];
    if k > 0 {
      ExtremesAreAttained(xs[..k], start);
      forall i | 0 <= i < k
        ensures Least(xs, start) <= xs[i] <= Greatest(xs, DEFAULT_MAX)
      {
        assert xs[..k][i] == xs[i];
      }
    }
  }

  /** The maximum is always a sample of the window. The minimum is one exactly unless the
      window is fresh and all its samples lie above the default, which is then reported. */
  lemma ReportedExtremes(w: Window)
    requires w.samples != []
    ensures ReportOf(w).max in w.samples && forall x :: x in w.samples ==> ReportOf(w).min <= x <= ReportOf(w).max
    ensures ReportOf(w).min in w.samples <==> w.carried || exists x :: x in w.samples && x <= DEFAULT_MIN
    ensures ReportOf(w).min !in w.samples ==> ReportOf(w).min == DEFAULT_MIN
  {
    ExtremesAreAttained(w.samples, if w.carried then w.samples[0] else DEFAULT_MIN);
  }

  /** Every window but the first after a start begins with the last sample of the previous one. */
  lemma WindowsCarryOver(history: seq<Event>)
    ensures var w, next := WindowOf(history), WindowOf(history + [Reported]);
            && (w.samples != [] ==> next == Window(true, [Last(w.samples)]))
            && (w.samples == [] ==> next == w)
  {
    assert (history + [Reported])[..|history|] == history;
  }

  lemma WindowAppend(history: seq<Event>, e: Event)
    ensures var w := WindowOf(history);
            WindowOf(history + [e]) ==
            match e
            case Started => Window(false, [])
            case Updated(fps) => w.(samples := w.samples + [fps])
            case Reported => if w.samples == [] then w else Window(true, [Last(w.samples)])
            case Stopped => w
  {
    assert (history + [e])[..|history|] == history;
  }

  lemma FiguresAppend(w: Window, x: nat)
    requires w.carried ==> w.samples != []
    ensures var next := w.(samples := w.samples + [x]);
            && Sum(next.samples) == Sum(w.samples) + x
            && WindowMin(next) == (if x < WindowMin(w) then x else WindowMin(w))
            && WindowMax(next) == Max(WindowMax(w), x)
  {
    assert (w.samples + [x])[..|w.samples|] == w.samples;
  }

  lemma FiguresOfCarried(x: nat)
    ensures var w := Window(true, [x]);
            Sum(w.samples) == x && WindowMin(w) == x && WindowMax(w) == x
  {
    var xs: seq<nat> := [x];
    assert Sum(xs) == Sum(xs[..|xs| - 1]) + x;
    ExtremesAreAttained(xs, x);
  }

  lemma FiguresOfFresh()
    ensures Figures(Window(false, []), 0, 0, DEFAULT_MIN, DEFAULT_MAX)
  {
  }

  /** A carried window always has the sample it carries. */
  lemma {:induction false} CarriedIsNonempty(history: seq<Event>)
    ensures WindowOf(history).carried ==> WindowOf(history).samples != []
  {
    if history != [] {
      CarriedIsNonempty(history[..|history| - 1]);
    }
  }

  /** The four running figures are those of the window. */
  predicate Figures(w: Window, updates: nat, total: nat, minFps: int, maxFps: int) {
    updates == |w.samples| && total == Sum(w.samples) && minFps == WindowMin(w) && maxFps == WindowMax(w)
  }

  predicate LastIs(samples: seq<nat>, inProgress: bool, lastFps: int) {
    if samples != [] then lastFps == Last(samples) else inProgress ==> lastFps == -1
  }

  class FrameRate {
    var periodMs: int
    var minFps: int
    var maxFps: int
    var total: nat
    var updates: nat
    var inProgress: bool
    var lastFps: int
    var timerActive: bool
    ghost var history: seq<Event>

    /** The running figures are those of the window that the history determines. */
    ghost predicate Valid()
      reads this
    {
      && Figures(WindowOf(history), updates, total, minFps, maxFps)
      && LastIs(WindowOf(history).samples, inProgress, lastFps)
      && (timerActive ==> inProgress)
      && periodMs >= MIN_PERIOD_MS
    }

    constructor ()
      ensures Valid() && history == [] && !inProgress
    {
      periodMs := DEFAULT_PERIOD_MS;
      minFps, maxFps, total, updates := DEFAULT_MIN, DEFAULT_MAX, 0, 0;
      inProgress, lastFps, timerActive := false, 0, false;
      history := [];
    }

    method SetCollectionFrequency(frequency: int) returns (status: Status)
      requires Valid()
      modifies this`periodMs
      ensures Valid()
      ensures status == (if frequency < 100 then ErrorInvalidParameter else ErrorNone)
      ensures periodMs == if status == ErrorNone then frequency else old(periodMs)
    {
      if frequency < MIN_PERIOD_MS {
        return ErrorInvalidParameter;
      }
      periodMs := frequency;
      status := ErrorNone;
    }

    method StartFpsCollection()
      requires Valid()
      modifies this
      ensures Valid() && history == old(history) + [Started] && WindowOf(history) == Window(false, [])
      ensures inProgress && timerActive && periodMs == old(periodMs)
    {
      WindowAppend(history, Started);
      FiguresOfFresh();
      minFps, maxFps, total, updates := DEFAULT_MIN, DEFAULT_MAX, 0, 0;
      inProgress := true;
      lastFps := -1;
      timerActive := true;
      history := history + [Started];
    }

    /** Stopping reports the unfinished window, if it has samples and collection was on. */
    method StopFpsCollection() returns (report: Option<Report>)
      requires Valid()
      modifies this`timerActive, this`inProgress, this`history
      ensures Valid() && history == old(history) + [Stopped] && !inProgress && !timerActive
      ensures var w := WindowOf(old(history));
              report == if old(inProgress) && w.samples != [] then Some(ReportOf(w)) else None
    {
      WindowAppend(history, Stopped);
      history := history + [Stopped];
      timerActive := false;
      report := None;
      if inProgress {
        inProgress := false;
        if updates > 0 {
          report := Some(Report(total / updates, minFps, maxFps));
        }
      }
    }

    /** Negative figures are refused; updates count whether or not collection is on. */
    method UpdateFps(newFps: int) returns (status: Status)
      requires Valid()
      modifies this
      ensures Valid() && unchanged(this`periodMs, this`inProgress, this`timerActive)
      ensures status == if newFps < 0 then ErrorInvalidParameter else ErrorNone
      ensures history == if newFps < 0 then old(history) else old(history) + [Updated(newFps)]
    {
      if newFps < 0 {
        return ErrorInvalidParameter;
      }
      ghost var w := WindowOf(history);
      CarriedIsNonempty(history);
      WindowAppend(history, Updated(newFps));
      FiguresAppend(w, newFps);
      maxFps := Max(maxFps, newFps);
      minFps := if newFps < minFps then newFps else minFps;
      total := total + newFps;
      updates := updates + 1;
      lastFps := newFps;
      history := history + [Updated(newFps)];
      status := ErrorNone;
    }

    /** The timer reports the window and opens the next one. */
    method OnReportFpsTimer() returns (report: Report)
      requires Valid() && timerActive
      modifies this
      ensures unchanged(this`periodMs, this`inProgress, this`timerActive, this`lastFps)
      ensures Valid() && history == old(history) + [Reported]
      ensures report == ReportOf(WindowOf(old(history)))
      ensures WindowOf(old(history)).samples != [] ==> report.min <= report.average <= report.max
    {
      ghost var w := WindowOf(history);
      if w.samples != [] {
        ReportIsOrdered(w);
      }
      WindowAppend(history, Reported);
      var average := if updates > 0 then total / updates else -1;
      var min := if updates > 0 then minFps else DEFAULT_MIN;
      var max := if updates > 0 then maxFps else DEFAULT_MAX;
      report := Report(average, min, max);
      if lastFps >= 0 {
        FiguresOfCarried(lastFps);
        minFps, maxFps, total, updates := lastFps, lastFps, lastFps, 1;
      } else {
        minFps, maxFps, total, updates := DEFAULT_MIN, DEFAULT_MAX, 0, 0;
      }
      history := history + [Reported];
    }
  }
}
