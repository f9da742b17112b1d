/**
 * `PerformanceMonitor` (src/lib/enhancedWebSocket.ts:288-352): labelled timers
 * whose durations are kept in a window of the latest 100 samples per label.
 * `performance.now()` is the parameter `now`.
 */
module Performance {
  import opened Recent

  const MaxSamples: nat := 100

  /** `reduce((sum, time) => sum + time, 0)`: the total, added from the front. */
  function Sum(s: seq<real>): real
    decreases |s|
  {
    if s == [] then 0.0 else Sum(s[..|s| - 1]) + s[|s| - 1]
  }

  /** Samples that all lie in [lo, hi] total between `lo` and `hi` times their number. */
  lemma {:induction false} SumBounds(s: seq<real>, lo: real, hi: real)
    requires forall i :: 0 <= i < |s| ==> lo <= s[i] <= hi
    ensures lo * |s| as real <= Sum(s) <= hi * |s| as real
    decreases |s|
  {
    if s != [] {
      var init := s[..|s| - 1];
      assert forall i :: 0 <= i < |init| ==> init[i] == s[i];
      SumBounds(init, lo, hi);
      assert |s| as real == |init| as real + 1.0;
    }
  }

  /** The mean of a non-empty window: `Sum(s) / |s|`. */
  function Mean(s: seq<real>): real
    requires s != []
  {
    Sum(s) / |s| as real
  }

  /** The average of a window lies between its smallest and largest sample. */
  lemma MeanWithinRange(s: seq<real>, lo: real, hi: real)
    requires s != []
    requires forall i :: 0 <= i < |s| ==> lo <= s[i] <= hi
    ensures lo <= Mean(s) <= hi
  {
    SumBounds(s, lo, hi);
    var n := |s| as real;
    assert Mean(s) * n == Sum(s);
  }

  /**
   * `push` then `shift` when longer than 100: the new sample is last and the
   * window is the latest 100 of the old window with the sample appended.
   */
  function Record(window: seq<real>, sample: real): (r: seq<real>)
    requires |window| <= MaxSamples
    ensures 0 < |r| <= MaxSamples && r[|r| - 1] == sample
    ensures r == Latest(window + [sample], MaxSamples)
  {
    var pushed := window + [sample];
    if |pushed| > MaxSamples then pushed[1..] else pushed
  }

  /** The window after recording a run of samples. */
  function RecordAll(window: seq<real>, samples: seq<real>): (r: seq<real>)
    requires |window| <= MaxSamples
    ensures |r| <= MaxSamples
    decreases |samples|
  {
    if samples == [] then window
    else Record(RecordAll(window, samples[..|samples| - 1]), samples[|samples| - 1])
  }

  /** After any run of `endTimer` calls a label's window holds its latest 100 durations, oldest first. */
  lemma {:induction false} WindowKeepsLatest(window: seq<real>, samples: seq<real>)
    requires |window| <= MaxSamples
    ensures RecordAll(window, samples) == Latest(window + samples, MaxSamples)
    decreases |samples|
  {
    if samples == [] {
      assert window + samples == window;
    } else {
      var init, last := samples[..|samples| - 1], samples[|samples| - 1];
      WindowKeepsLatest(window, init);
      LatestSnoc(window + init, last, MaxSamples);
      assert window + samples == (window + init) + [last];
    }
  }

  /** One label's line in `getMetrics()`. */
  datatype Summary = Summary(average: real, count: nat, latest: real)

  class PerformanceMonitor {
    var metrics: map<string, seq<real>>
    var startTimes: map<string, real>

    /** Every label's window holds between 1 and 100 samples. */
    ghost predicate Valid()
      reads this
    {
      forall name :: name in metrics ==> 0 < |metrics[name]| <= MaxSamples
    }

    constructor ()
      ensures Valid()
      ensures metrics == map[] && startTimes == map[]
    {
      metrics, startTimes := map[], map[];
    }

    /** `startTimer(label)`: (re)starts the label's timer at `now`. */
    method StartTimer(name: string, now: real)
      modifies this`startTimes
      ensures startTimes == old(startTimes)[name := now]
    {
      startTimes := startTimes[name := now];
    }

    /**
     * `endTimer(label)`: a timer that was never started, or started at time 0
     * (a falsy start), yields 0 and changes nothing; otherwise the elapsed
     * time is recorded in the label's window, the timer is cleared and the
     * elapsed time returned.
     */
    method EndTimer(name: string, now: real) returns (duration: real)
      requires Valid()
      modifies this`metrics, this`startTimes
      ensures Valid()
      ensures name !in old(startTimes) || old(startTimes)[name] == 0.0 ==>
        duration == 0.0 && metrics == old(metrics) && startTimes == old(startTimes)
      ensures name in old(startTimes) && old(startTimes)[name] != 0.0 ==>
        && duration == now - old(startTimes)[name]
        && startTimes == old(startTimes) - {name}
        && metrics == old(metrics)[name := Record(if name in old(metrics) then old(metrics)[name] else [], duration)]
    {
      if name in startTimes && startTimes[name] != 0.0 {
        duration := now - startTimes[name];
        var measurements := if name in metrics then metrics[name] else [];
        metrics := metrics[name := Record(measurements, duration)];
        startTimes := startTimes - {name};
      } else {
        duration := 0.0;
      }
    }

    /** `getAverageTime(label)`: the window's mean, or 0 for an unknown label. */
    function GetAverageTime(name: string): (r: real)
      reads this
      requires Valid()
      ensures name !in metrics ==> r == 0.0
      ensures name in metrics ==> r == Mean(metrics[name])
    {
      if name !in metrics || |metrics[name]| == 0 then 0.0
      else Sum(metrics[name]) / |metrics[name]| as real
    }

    /** `getMetrics()`: for each label with samples, its mean, sample count and latest sample. */
    function GetMetrics(): (r: map<string, Summary>)
      reads this
      requires Valid()
      ensures r.Keys == metrics.Keys
      ensures forall name :: name in r ==>
        && r[name].count == |metrics[name]|
        && r[name].latest == metrics[name][|metrics[name]| - 1]
        && r[name].average == Mean(metrics[name])
    {
      map name | name in metrics ::
        Summary(GetAverageTime(name), |metrics[name]|, metrics[name][|metrics[name]| - 1])
    }

    /** `reset()`: forgets every sample and every running timer. */
    method Reset()
      modifies this`metrics, this`startTimes
      ensures Valid()
      ensures metrics == map[] && startTimes == map[]
    {
      metrics, startTimes := map[], map[];
    }
  }
}
