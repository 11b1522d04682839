/** What the composition passes work on, and maximal runs of equal values. */
module CompositionSamples {
  import opened Common

  /** Slack of the comparisons of durations, in seconds. */
  const TOLERANCE := 0.000001

  datatype Layout = Fill | Split | Fit

  datatype Box = Box(trackId: Option<int>, activity: real, x: real, y: real, width: real, height: real, person: bool)

  datatype Sample = Sample(
    time: real, layout: Layout, confidence: real, focusX: real, focusY: real, boxes: seq<Box>,
    fillSafe: bool, framingSafe: bool, framingFallback: bool, aiCovered: bool,
    crossTalk: bool, trackingHeld: bool, activeTrackId: Option<int>)

  function Layouts(samples: seq<Sample>): (r: seq<Layout>)
    ensures |r| == |samples| && forall i | 0 <= i < |r| :: r[i] == samples[i].layout
  {
    seq(|samples|, i requires 0 <= i < |samples| => samples[i].layout)
  }

  function Times(samples: seq<Sample>): (r: seq<real>)
    ensures |r| == |samples| && forall i | 0 <= i < |r| :: r[i] == samples[i].time
  {
    seq(|samples|, i requires 0 <= i < |samples| => samples[i].time)
  }

  predicate Nondecreasing(times: seq<real>) {
    forall i, j | 0 <= i <= j < |times| :: times[i] <= times[j]
  }

  // ----- maximal runs

  /** The first index of the run around i. */
  function RunStart<T(==)>(xs: seq<T>, i: nat): (a: nat)
    requires i < |xs|
    ensures a <= i && forall k | a <= k <= i :: xs[k] == xs[i]
    ensures a == 0 || xs[a - 1] != xs[i]
  {
    if i == 0 || xs[i - 1] != xs[i] then i else RunStart(xs, i - 1)
  }

  /** One past the last index of the run around i. */
  function RunEnd<T(==)>(xs: seq<T>, i: nat): (b: nat)
    requires i < |xs|
    ensures i < b <= |xs| && forall k | i <= k < b :: xs[k] == xs[i]
    ensures b == |xs| || xs[b] != xs[i]
    decreases |xs| - i
  {
    if i + 1 == |xs| || xs[i + 1] != xs[i] then i + 1 else RunEnd(xs, i + 1)
  }

  ghost predicate IsRun<T>(xs: seq<T>, a: nat, b: nat) {
    && a < b <= |xs|
    && (forall k | a <= k < b :: xs[k] == xs[a])
    && (a == 0 || xs[a - 1] != xs[a])
    && (b == |xs| || xs[b] != xs[a])
  }

  /** Every index lies in a run. */
  lemma RunAround<T>(xs: seq<T>, i: nat)
    requires i < |xs|
    ensures IsRun(xs, RunStart(xs, i), RunEnd(xs, i))
  {
  }

  /** And in one only. */
  lemma SameRun<T>(xs: seq<T>, a: nat, b: nat, c: nat, d: nat, i: nat)
    requires IsRun(xs, a, b) && IsRun(xs, c, d) && a <= i < b && c <= i < d
    ensures a == c && b == d
  {
    assert xs[a] == xs[i] == xs[c];
  }
}
