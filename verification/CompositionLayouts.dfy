/** The passes that rewrite the layout of whole runs of samples. Each is stated as a relation
    between the list that goes in and the list that comes out. */
module CompositionLayouts {
  import opened CompositionSamples

  // ----- stabilize_layouts

  /** The layout of the run [a, b) after the pass: a short run takes the layout the pass has
      just given its left neighbour, and the first run takes its right neighbour's. */
  function Replacement(layouts: seq<Layout>, times: seq<real>, minimum: real, out: seq<Layout>, a: nat, b: nat): Layout
    requires |layouts| == |times| == |out| && a < b <= |layouts|
  {
    if times[b - 1] - times[a] >= minimum then layouts[a]
    else if a > 0 then out[a - 1]
    else if b < |layouts| then layouts[b]
    else layouts[a]
  }

  ghost predicate RunReplaced(layouts: seq<Layout>, times: seq<real>, minimum: real, out: seq<Layout>, a: nat, b: nat)
    requires |layouts| == |times| == |out| && a < b <= |layouts|
  {
    forall i | a <= i < b :: out[i] == Replacement(layouts, times, minimum, out, a, b)
  }

  ghost predicate Stabilized(layouts: seq<Layout>, times: seq<real>, minimum: real, out: seq<Layout>) {
    && |layouts| == |times| == |out|
    && forall a: nat, b: nat | IsRun(layouts, a, b) :: RunReplaced(layouts, times, minimum, out, a, b)
  }

  /** Only the layouts may differ. */
  ghost predicate OnlyRelaid(before: seq<Sample>, after: seq<Sample>) {
    |after| == |before| && forall i | 0 <= i < |after| :: after[i] == before[i].(layout := after[i].layout)
  }

  method StabilizeLayouts(samples: seq<Sample>, minimum: real) returns (values: seq<Sample>)
    ensures OnlyRelaid(samples, values)
    ensures Stabilized(Layouts(samples), Times(samples), minimum, Layouts(values))
  {
    values := samples;
    ghost var layouts, times := Layouts(samples), Times(samples);
    var index := 0;
    while index < |values|
      invariant 0 <= index <= |values| == |samples|
      invariant index == 0 || index == |samples| || layouts[index] != layouts[index - 1]
      invariant OnlyRelaid(samples, values)
      invariant forall i | index <= i < |values| :: values[i] == samples[i]
      invariant forall a: nat, b: nat | IsRun(layouts, a, b) && b <= index :: RunReplaced(layouts, times, minimum, Layouts(values), a, b)
    {
      var end := LayoutRunEnd(values, index);
      var duration := values[end - 1].time - values[index].time;
      ghost var before := values;
      if duration < minimum {
        var replacement :=
          if index > 0 then values[index - 1].layout
          else if end < |values| then values[end].layout
          else values[index].layout;
        values := SetLayouts(values, index, end, replacement);
      }
      OneMoreRun(samples, before, values, minimum, index, end);
      index := end;
    }
  }

  /** The inner loop that looks for the end of a run. */
  method LayoutRunEnd(values: seq<Sample>, index: nat) returns (end: nat)
    requires index < |values|
    ensures index < end <= |values| && forall k | index <= k < end :: values[k].layout == values[index].layout
    ensures end < |values| ==> values[end].layout != values[index].layout
  {
    end := index + 1;
    while end < |values| && values[end].layout == values[index].layout
      invariant index < end <= |values|
      invariant forall k | index <= k < end :: values[k].layout == values[index].layout
    {
      end := end + 1;
    }
  }

  /** The inner loop that gives one run its new layout. */
  method SetLayouts(samples: seq<Sample>, from: nat, to: nat, layout: Layout) returns (values: seq<Sample>)
    requires from <= to <= |samples|
    ensures |values| == |samples|
    ensures forall i | 0 <= i < |samples| ::
      values[i] == if from <= i < to then samples[i].(layout := layout) else samples[i]
  {
    values := samples;
    var item := from;
    while item < to
      invariant from <= item <= to && |values| == |samples|
      invariant forall i | 0 <= i < |samples| ::
        values[i] == if from <= i < item then samples[i].(layout := layout) else samples[i]
    {
      values := values[item := values[item].(layout := layout)];
      item := item + 1;
    }
  }

  lemma OneMoreRun(samples: seq<Sample>, before: seq<Sample>, after: seq<Sample>, minimum: real, index: nat, end: nat)
    requires |samples| == |before| == |after|
    requires IsRun(Layouts(samples), index, end)
    requires forall i | 0 <= i < index || end <= i < |after| :: after[i] == before[i]
    requires RunReplaced(Layouts(samples), Times(samples), minimum, Layouts(after), index, end)
    requires forall a: nat, b: nat | IsRun(Layouts(samples), a, b) && b <= index ::
      RunReplaced(Layouts(samples), Times(samples), minimum, Layouts(before), a, b)
    ensures forall a: nat, b: nat | IsRun(Layouts(samples), a, b) && b <= end ::
      RunReplaced(Layouts(samples), Times(samples), minimum, Layouts(after), a, b)
  {
    var layouts, times := Layouts(samples), Times(samples);
    forall a: nat, b: nat | IsRun(layouts, a, b) && b <= end
      ensures RunReplaced(layouts, times, minimum, Layouts(after), a, b)
    {
      if b > index {
        SameRun(layouts, a, b, index, end, if a < index then index else a);
      } else {
        assert RunReplaced(layouts, times, minimum, Layouts(before), a, b);
      }
    }
  }

  /** After the pass every run but the first spans at least the minimum. */
  lemma StableRunsAreLong(layouts: seq<Layout>, times: seq<real>, minimum: real, out: seq<Layout>, a: nat, b: nat)
    requires Stabilized(layouts, times, minimum, out) && Nondecreasing(times)
    requires 0 < a && IsRun(out, a, b)
    ensures times[b - 1] - times[a] >= minimum
  {
    var s, e := RunStart(layouts, a), RunEnd(layouts, a);
    RunAround(layouts, a);
    assert RunReplaced(layouts, times, minimum, out, s, e);
    assert out[a] == Replacement(layouts, times, minimum, out, s, e);
    if s < a {
      assert false;
    } else if b < e {
      assert false;
    }
    assert times[e - 1] <= times[b - 1];
  }

  /** The relation leaves the pass no choice. */
  lemma {:induction false} StabilizedUnique(layouts: seq<Layout>, times: seq<real>, minimum: real,
      out: seq<Layout>, out': seq<Layout>, n: nat)
    requires Stabilized(layouts, times, minimum, out) && Stabilized(layouts, times, minimum, out') && n <= |layouts|
    ensures forall i | 0 <= i < n :: out[i] == out'[i]
    decreases n
  {
    if n > 0 {
      StabilizedUnique(layouts, times, minimum, out, out', n - 1);
      RunAround(layouts, n - 1);
      var a, b := RunStart(layouts, n - 1), RunEnd(layouts, n - 1);
      assert RunReplaced(layouts, times, minimum, out, a, b) && RunReplaced(layouts, times, minimum, out', a, b);
    }
  }

  predicate FirstRunLongOrOnly(layouts: seq<Layout>, times: seq<real>, minimum: real)
    requires |layouts| == |times|
  {
    layouts == [] || RunEnd(layouts, 0) == |layouts| || times[RunEnd(layouts, 0) - 1] - times[0] >= minimum
  }

  /** What another application does to a list that came out of the pass. */
  lemma SecondApplication(layouts: seq<Layout>, times: seq<real>, minimum: real, once: seq<Layout>,
      twice: seq<Layout>, i: nat)
    requires Stabilized(layouts, times, minimum, once) && Stabilized(once, times, minimum, twice) && Nondecreasing(times)
    requires i < |layouts|
    ensures RunStart(once, i) > 0 || FirstRunLongOrOnly(once, times, minimum) ==> twice[i] == once[i]
    ensures RunStart(once, i) == 0 && !FirstRunLongOrOnly(once, times, minimum) ==> twice[i] == once[RunEnd(once, 0)]
  {
    var a, b := RunStart(once, i), RunEnd(once, i);
    RunAround(once, i);
    assert RunReplaced(once, times, minimum, twice, a, b);
    if a > 0 {
      StableRunsAreLong(layouts, times, minimum, once, a, b);
    } else {
      RunAround(once, 0);
      SameRun(once, 0, b, RunStart(once, 0), RunEnd(once, 0), 0);
    }
  }

  /** A second application changes nothing exactly when the first left its first run long, or alone. */
  lemma StableTwiceIff(layouts: seq<Layout>, times: seq<real>, minimum: real, once: seq<Layout>, twice: seq<Layout>)
    requires Stabilized(layouts, times, minimum, once) && Stabilized(once, times, minimum, twice) && Nondecreasing(times)
    ensures twice == once <==> FirstRunLongOrOnly(once, times, minimum)
  {
    if FirstRunLongOrOnly(once, times, minimum) {
      forall i | 0 <= i < |once| ensures twice[i] == once[i] {
        SecondApplication(layouts, times, minimum, once, twice, i);
      }
    } else {
      SecondApplication(layouts, times, minimum, once, twice, 0);
    }
  }

  /** Where the first run of the result ends that begins with `layout`: before the first run, from
      i on, that is long and has another layout. */
  function FirstBreak(layouts: seq<Layout>, times: seq<real>, minimum: real, layout: Layout, i: nat): (s: nat)
    requires |layouts| == |times| && i <= |layouts|
    ensures i <= s <= |layouts|
    decreases |layouts| - i
  {
    if i == |layouts| then i
    else
      var e := RunEnd(layouts, i);
      if layouts[i] != layout && times[e - 1] - times[i] >= minimum then i
      else FirstBreak(layouts, times, minimum, layout, e)
  }

  /** The first run is short, and with all that takes its right neighbour's layout as well it is
      still short and not alone. */
  predicate FirstStaysShort(layouts: seq<Layout>, times: seq<real>, minimum: real)
    requires |layouts| == |times|
  {
    && layouts != []
    && var e := RunEnd(layouts, 0);
    && e < |layouts| && times[e - 1] - times[0] < minimum
    && var s := FirstBreak(layouts, times, minimum, layouts[e], e);
    && s < |layouts| && times[s - 1] - times[0] < minimum
  }

  /** Runs from i on take the layout before them up to the break, and not beyond. */
  lemma {:induction false} TakenUpToBreak(layouts: seq<Layout>, times: seq<real>, minimum: real, once: seq<Layout>,
      layout: Layout, i: nat)
    requires Stabilized(layouts, times, minimum, once) && 0 < i <= |layouts| && once[i - 1] == layout
    requires i < |layouts| ==> layouts[i - 1] != layouts[i]
    ensures var s := FirstBreak(layouts, times, minimum, layout, i);
      (forall k | i <= k < s :: once[k] == layout) && (s < |layouts| ==> once[s] != layout)
    decreases |layouts| - i
  {
    if i < |layouts| {
      var e := RunEnd(layouts, i);
      assert IsRun(layouts, i, e);
      assert RunReplaced(layouts, times, minimum, once, i, e);
      if !(layouts[i] != layout && times[e - 1] - times[i] >= minimum) {
        assert forall k | i <= k < e :: once[k] == layout;
        TakenUpToBreak(layouts, times, minimum, once, layout, e);
      }
    }
  }

  /** The first run that comes out, from what goes in. */
  lemma FirstRunShortIff(layouts: seq<Layout>, times: seq<real>, minimum: real, once: seq<Layout>)
    requires Stabilized(layouts, times, minimum, once) && Nondecreasing(times)
    ensures FirstRunLongOrOnly(once, times, minimum) <==> !FirstStaysShort(layouts, times, minimum)
  {
    if layouts != [] {
      var e := RunEnd(layouts, 0);
      assert IsRun(layouts, 0, e);
      assert RunReplaced(layouts, times, minimum, once, 0, e);
      assert forall k | 0 <= k < e :: once[k] == once[0];
      if e < |layouts| && times[e - 1] - times[0] < minimum {
        TakenUpToBreak(layouts, times, minimum, once, layouts[e], e);
        var s := FirstBreak(layouts, times, minimum, layouts[e], e);
        assert RunEnd(once, 0) == s;
      } else {
        assert times[e - 1] <= times[RunEnd(once, 0) - 1];
      }
    }
  }

  /** A second application changes nothing exactly when the list that went in did not leave its
      first run short. */
  lemma StableOnceIff(layouts: seq<Layout>, times: seq<real>, minimum: real, once: seq<Layout>, twice: seq<Layout>)
    requires Stabilized(layouts, times, minimum, once) && Stabilized(once, times, minimum, twice) && Nondecreasing(times)
    ensures twice == once <==> !FirstStaysShort(layouts, times, minimum)
  {
    StableTwiceIff(layouts, times, minimum, once, twice);
    FirstRunShortIff(layouts, times, minimum, once);
  }

  /** The second application always reaches a fixed point. */
  lemma StableThrice(layouts: seq<Layout>, times: seq<real>, minimum: real, once: seq<Layout>, twice: seq<Layout>,
      thrice: seq<Layout>)
    requires Stabilized(layouts, times, minimum, once) && Stabilized(once, times, minimum, twice)
    requires Stabilized(twice, times, minimum, thrice) && Nondecreasing(times)
    ensures thrice == twice
  {
    StableTwiceIff(layouts, times, minimum, once, twice);
    StableTwiceIff(once, times, minimum, twice, thrice);
    if twice != once {
      SecondRunAbsorbs(layouts, times, minimum, once, twice);
    }
  }

  lemma SecondRunAbsorbs(layouts: seq<Layout>, times: seq<real>, minimum: real, once: seq<Layout>, twice: seq<Layout>)
    requires Stabilized(layouts, times, minimum, once) && Stabilized(once, times, minimum, twice) && Nondecreasing(times)
    requires !FirstRunLongOrOnly(once, times, minimum)
    ensures FirstRunLongOrOnly(twice, times, minimum)
  {
    var e := RunEnd(once, 0);
    var b := RunEnd(once, e);
    RunAround(once, 0);
    RunAround(once, e);
    StableRunsAreLong(layouts, times, minimum, once, e, b);
    forall i | 0 <= i < b ensures twice[i] == once[e] {
      SecondApplication(layouts, times, minimum, once, twice, i);
      RunAround(once, i);
      if i < e {
        SameRun(once, 0, e, RunStart(once, i), RunEnd(once, i), i);
      } else {
        SameRun(once, e, b, RunStart(once, i), RunEnd(once, i), i);
      }
    }
    LongFirstRun(twice, times, minimum, e, b);
  }

  lemma LongFirstRun(layouts: seq<Layout>, times: seq<real>, minimum: real, e: nat, b: nat)
    requires |layouts| == |times| && Nondecreasing(times) && e < b <= |layouts|
    requires forall i | 0 <= i < b :: layouts[i] == layouts[e]
    requires times[b - 1] - times[e] >= minimum
    ensures FirstRunLongOrOnly(layouts, times, minimum)
  {
    var end := RunEnd(layouts, 0);
    assert layouts[0] == layouts[e];
    if end < b {
      assert false;
    }
    assert times[b - 1] <= times[end - 1] && times[0] <= times[e];
  }

  /** The first run can stay short: two samples flash by before the long run. */
  lemma FirstRunCanStayShort(once: seq<Layout>)
    requires Stabilized([Fill, Split, Fit, Fit], [0.0, 0.25, 0.5, 1.5], 0.6, once)
    ensures once == [Split, Split, Fit, Fit] && !FirstRunLongOrOnly(once, [0.0, 0.25, 0.5, 1.5], 0.6)
  {
    var layouts, times := [Fill, Split, Fit, Fit], [0.0, 0.25, 0.5, 1.5];
    assert IsRun(layouts, 0, 1) && IsRun(layouts, 1, 2) && IsRun(layouts, 2, 4);
    assert RunReplaced(layouts, times, 0.6, once, 0, 1);
    assert RunReplaced(layouts, times, 0.6, once, 1, 2);
    assert RunReplaced(layouts, times, 0.6, once, 2, 4);
    assert once == [Split, Split, Fit, Fit];
    RunAround(once, 0);
    assert IsRun(once, 0, 2);
    SameRun(once, 0, 2, 0, RunEnd(once, 0), 0);
  }

  // ----- settle_short_unsafe_runs

  /** An interior fill or split run that the next sample follows too soon. */
  predicate ShortInside(layouts: seq<Layout>, times: seq<real>, minimum: real, a: nat, b: nat)
    requires |layouts| == |times| && a < b <= |layouts|
  {
    0 < a && b < |layouts| && layouts[a] != Fit && times[b] - times[a] < minimum
  }

  ghost predicate RunSettled(samples: seq<Sample>, minimum: real, values: seq<Sample>, a: nat, b: nat)
    requires |samples| == |values| && a < b <= |samples|
  {
    var short := ShortInside(Layouts(samples), Times(samples), minimum, a, b);
    forall i | a <= i < b :: values[i] == if short then samples[i].(layout := Fit, framingSafe := true) else samples[i]
  }

  ghost predicate Settled(samples: seq<Sample>, minimum: real, values: seq<Sample>) {
    && |samples| == |values|
    && forall a: nat, b: nat | IsRun(Layouts(samples), a, b) :: RunSettled(samples, minimum, values, a, b)
  }

  /** A run becomes fit exactly when it is inside, fills or splits, and is followed too soon. */
  lemma SettledIff(samples: seq<Sample>, minimum: real, values: seq<Sample>, a: nat, b: nat, i: nat)
    requires Settled(samples, minimum, values) && IsRun(Layouts(samples), a, b) && a <= i < b
    ensures values[i] ==
      if 0 < a && b < |samples| && (samples[a].layout == Fill || samples[a].layout == Split)
         && samples[b].time - samples[a].time < minimum
      then samples[i].(layout := Fit, framingSafe := true) else samples[i]
  {
    assert RunSettled(samples, minimum, values, a, b);
  }

  method SettleShortUnsafeRuns(samples: seq<Sample>, minimum: real) returns (values: seq<Sample>)
    ensures Settled(samples, minimum, values)
  {
    values := samples;
    ghost var layouts := Layouts(samples);
    var index := 0;
    while index < |values|
      invariant 0 <= index <= |values| == |samples|
      invariant index == 0 || index == |samples| || layouts[index] != layouts[index - 1]
      invariant forall i | index <= i < |values| :: values[i] == samples[i]
      invariant forall a: nat, b: nat | IsRun(layouts, a, b) && b <= index :: RunSettled(samples, minimum, values, a, b)
    {
      var end := LayoutRunEnd(values, index);
      var nextTime := if end < |values| then values[end].time else values[end - 1].time;
      var duration := nextTime - values[index].time;
      var interior := index > 0 && end < |values|;
      ghost var before := values;
      if interior && values[index].layout != Fit && duration < minimum {
        values := SetFit(values, index, end);
      }
      OneMoreSettled(samples, before, values, minimum, index, end);
      index := end;
    }
  }

  method SetFit(samples: seq<Sample>, from: nat, to: nat) returns (values: seq<Sample>)
    requires from <= to <= |samples|
    ensures |values| == |samples|
    ensures forall i | 0 <= i < |samples| ::
      values[i] == if from <= i < to then samples[i].(layout := Fit, framingSafe := true) else samples[i]
  {
    values := samples;
    var item := from;
    while item < to
      invariant from <= item <= to && |values| == |samples|
      invariant forall i | 0 <= i < |samples| ::
        values[i] == if from <= i < item then samples[i].(layout := Fit, framingSafe := true) else samples[i]
    {
      values := values[item := values[item].(layout := Fit, framingSafe := true)];
      item := item + 1;
    }
  }

  lemma OneMoreSettled(samples: seq<Sample>, before: seq<Sample>, after: seq<Sample>, minimum: real, index: nat,
      end: nat)
    requires |samples| == |before| == |after|
    requires IsRun(Layouts(samples), index, end)
    requires forall i | 0 <= i < index || end <= i < |after| :: after[i] == before[i]
    requires RunSettled(samples, minimum, after, index, end)
    requires forall a: nat, b: nat | IsRun(Layouts(samples), a, b) && b <= index :: RunSettled(samples, minimum, before, a, b)
    ensures forall a: nat, b: nat | IsRun(Layouts(samples), a, b) && b <= end :: RunSettled(samples, minimum, after, a, b)
  {
    var layouts := Layouts(samples);
    forall a: nat, b: nat | IsRun(layouts, a, b) && b <= end
      ensures RunSettled(samples, minimum, after, a, b)
    {
      if b > index {
        SameRun(layouts, a, b, index, end, if a < index then index else a);
      } else {
        assert RunSettled(samples, minimum, before, a, b);
      }
    }
  }

  /** No interior fill or split run is left that the next sample follows too soon. */
  lemma SettledRunsAreLong(samples: seq<Sample>, minimum: real, values: seq<Sample>, a: nat, b: nat)
    requires Settled(samples, minimum, values)
    requires IsRun(Layouts(values), a, b) && 0 < a && b < |values| && values[a].layout != Fit
    ensures values[b].time - values[a].time >= minimum
  {
    var layouts := Layouts(samples);
    var s, e := RunStart(layouts, a), RunEnd(layouts, a);
    RunAround(layouts, a);
    assert RunSettled(samples, minimum, values, s, e);
    assert values[a] == samples[a];
    assert !ShortInside(layouts, Times(samples), minimum, s, e);
    if e < |values| {
      SettledKeepsTimes(samples, minimum, values, e);
    }
    if s < a {
      assert false;
    } else if b < e {
      assert false;
    } else if e < b {
      assert false;
    }
    SettledKeepsTimes(samples, minimum, values, b);
  }

  lemma SettledKeepsTimes(samples: seq<Sample>, minimum: real, values: seq<Sample>, i: nat)
    requires Settled(samples, minimum, values) && i < |values|
    ensures values[i].time == samples[i].time
    ensures values[i] == samples[i] || values[i] == samples[i].(layout := Fit, framingSafe := true)
  {
    RunAround(Layouts(samples), i);
    assert RunSettled(samples, minimum, values, RunStart(Layouts(samples), i), RunEnd(Layouts(samples), i));
  }

  lemma SettleIdempotent(samples: seq<Sample>, minimum: real, once: seq<Sample>, twice: seq<Sample>)
    requires Settled(samples, minimum, once) && Settled(once, minimum, twice)
    ensures twice == once
  {
    forall i | 0 <= i < |once| ensures twice[i] == once[i] {
      var a, b := RunStart(Layouts(once), i), RunEnd(Layouts(once), i);
      RunAround(Layouts(once), i);
      assert RunSettled(once, minimum, twice, a, b);
      if 0 < a && b < |once| && once[a].layout != Fit {
        SettledRunsAreLong(samples, minimum, once, a, b);
      }
    }
  }

  // ----- enforce_safe_layouts

  function Safe(sample: Sample): Sample {
    if sample.layout != Fill || sample.fillSafe then sample.(framingSafe := true)
    else sample.(layout := if |sample.boxes| >= 2 then Split else Fit, framingSafe := true, framingFallback := true)
  }

  /** An unsafe fill is shown split when there are two people, fit otherwise, and is marked. */
  lemma SafeInstead(sample: Sample)
    ensures sample.layout == Fill && !sample.fillSafe ==>
      Safe(sample) == sample.(layout := if |sample.boxes| >= 2 then Split else Fit, framingSafe := true, framingFallback := true)
    ensures sample.layout != Fill || sample.fillSafe ==> Safe(sample) == sample.(framingSafe := true)
  {
  }

  method EnforceSafeLayouts(samples: seq<Sample>) returns (values: seq<Sample>)
    ensures |values| == |samples| && forall i | 0 <= i < |values| :: values[i] == Safe(samples[i])
    ensures forall i | 0 <= i < |values| :: values[i].framingSafe && (values[i].layout == Fill ==> values[i].fillSafe)
  {
    values := samples;
    var i := 0;
    while i < |values|
      invariant 0 <= i <= |values| == |samples|
      invariant forall k | 0 <= k < i :: values[k] == Safe(samples[k])
      invariant forall k | i <= k < |values| :: values[k] == samples[k]
    {
      var sample := values[i];
      if sample.layout != Fill || sample.fillSafe {
        sample := sample.(framingSafe := true);
      } else {
        sample := sample.(layout := if |sample.boxes| >= 2 then Split else Fit);
        sample := sample.(framingSafe := true, framingFallback := true);
      }
      values := values[i := sample];
      i := i + 1;
    }
  }
}
