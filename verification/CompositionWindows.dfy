/** The detection rate around each sample, by a window that slides over the times. */
module CompositionWindows {
  import opened CompositionSamples

  /** Sample j is inside the window centred on sample i. */
  predicate Near(times: seq<real>, i: nat, j: nat, radius: real)
    requires i < |times| && j < |times|
  {
    times[j] - times[i] <= radius && times[i] - times[j] <= radius
  }

  ghost function NearSet(times: seq<real>, i: nat, radius: real): set<nat>
    requires i < |times|
  {
    set j: nat | j < |times| && Near(times, i, j, radius)
  }

  ghost function UsableNear(times: seq<real>, usable: seq<bool>, i: nat, radius: real): set<nat>
    requires i < |times| == |usable|
  {
    set j: nat | j < |times| && Near(times, i, j, radius) && usable[j]
  }

  /** The share of usable samples among those in the window; nothing about how it is found. */
  ghost function Rate(times: seq<real>, usable: seq<bool>, i: nat, radius: real): real
    requires i < |times| == |usable|
  {
    if NearSet(times, i, radius) == {} then 0.0
    else |UsableNear(times, usable, i, radius)| as real / |NearSet(times, i, radius)| as real
  }

  /** `sum(usable[a:b])` */
  function Sum(usable: seq<bool>, a: nat, b: nat): nat
    requires a <= b <= |usable|
    decreases b - a
  {
    if a == b then 0 else Sum(usable, a, b - 1) + if usable[b - 1] then 1 else 0
  }

  ghost function Range(a: nat, b: nat): (r: set<nat>)
    requires a <= b
    ensures |r| == b - a && forall j :: j in r <==> a <= j < b
    decreases b - a
  {
    if a == b then {} else Range(a, b - 1) + {b - 1}
  }

  ghost function UsableRange(usable: seq<bool>, a: nat, b: nat): (r: set<nat>)
    requires a <= b <= |usable|
    ensures |r| == Sum(usable, a, b) && forall j :: j in r <==> a <= j < b && usable[j]
    decreases b - a
  {
    if a == b then {}
    else if usable[b - 1] then UsableRange(usable, a, b - 1) + {b - 1}
    else UsableRange(usable, a, b - 1)
  }

  /** When the two pointers have stopped, they enclose exactly the window. */
  lemma PointersEnclose(times: seq<real>, usable: seq<bool>, i: nat, radius: real, start: nat, end: nat)
    requires i < |times| == |usable| && Nondecreasing(times) && start <= |times| && end < |times|
    requires forall j | 0 <= j < start :: times[i] - times[j] > radius
    requires start < |times| ==> times[i] - times[start] <= radius
    requires end > 0 ==> times[end] - times[i] <= radius
    requires end < |times| - 1 ==> times[end + 1] - times[i] > radius
    ensures start > end ==> NearSet(times, i, radius) == {}
    ensures start <= end ==>
      NearSet(times, i, radius) == Range(start, end + 1) && UsableNear(times, usable, i, radius) == UsableRange(usable, start, end + 1)
  {
    forall j: nat | j < |times| ensures Near(times, i, j, radius) <==> start <= j <= end {
      if start <= j <= end {
        assert times[start] <= times[j] <= times[end];
        if end == 0 {
          assert times[0] <= times[i];
        }
      } else if j > end {
        assert times[end + 1] <= times[j];
      }
    }
  }

  /** `sum(window) / len(window)` is the rate. */
  lemma PointersGiveRate(times: seq<real>, usable: seq<bool>, i: nat, radius: real, start: nat, end: nat)
    requires i < |times| == |usable| && Nondecreasing(times) && start <= |times| && end < |times|
    requires forall j | 0 <= j < start :: times[i] - times[j] > radius
    requires start < |times| ==> times[i] - times[start] <= radius
    requires end > 0 ==> times[end] - times[i] <= radius
    requires end < |times| - 1 ==> times[end + 1] - times[i] > radius
    ensures Rate(times, usable, i, radius) ==
      if start <= end then Sum(usable, start, end + 1) as real / (end + 1 - start) as real else 0.0
  {
    PointersEnclose(times, usable, i, radius, start, end);
    if start <= end {
      assert start in Range(start, end + 1);
    }
  }

  /** `moves` counts the steps of both pointers. */
  method WindowedUsableRates(times: seq<real>, usable: seq<bool>, windowSeconds: real)
    returns (rates: seq<real>, ghost moves: nat)
    requires |times| == |usable| && Nondecreasing(times)
    ensures |rates| == |times|
    ensures forall i | 0 <= i < |rates| :: rates[i] == Rate(times, usable, i, windowSeconds / 2.0)
    ensures moves <= 2 * |times|
  {
    var radius := windowSeconds / 2.0;
    rates := [];
    moves := 0;
    var start, end, n := 0, 0, |times|;
    var index := 0;
    while index < n
      invariant 0 <= index <= n && |rates| == index && start <= n && end <= n && (n > 0 ==> end < n)
      invariant moves == start + end
      invariant forall i | 0 <= i < index :: rates[i] == Rate(times, usable, i, radius)
      invariant forall j | index < n && 0 <= j < start :: times[index] - times[j] > radius
      invariant index < n && end > 0 ==> times[end] - times[index] <= radius
    {
      while start < n && times[index] - times[start] > radius
        invariant start <= n && moves == start + end
        invariant forall j | 0 <= j < start :: times[index] - times[j] > radius
      {
        start, moves := start + 1, moves + 1;
      }
      while end < n - 1 && times[end + 1] - times[index] <= radius
        invariant end < n && moves == start + end
        invariant end > 0 ==> times[end] - times[index] <= radius
      {
        end, moves := end + 1, moves + 1;
      }
      PointersGiveRate(times, usable, index, radius, start, end);
      var rate := if start <= end then Sum(usable, start, end + 1) as real / (end + 1 - start) as real else 0.0;
      rates := rates + [rate];
      if index + 1 < n {
        assert times[index] <= times[index + 1];
      }
      index := index + 1;
    }
  }
}
