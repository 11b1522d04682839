/** What holding on to tracks does to the runs that the passes before it have made long enough:
    exactly which runs come out whole, and exactly when none comes out short. */
module CompositionCuts {
  import opened CompositionSamples
  import L = CompositionLayouts
  import H = CompositionHysteresis

  function ForcedFlags(samples: seq<Sample>, delay: real): (r: seq<bool>)
    ensures |r| == |samples| && forall k | 0 <= k < |r| :: r[k] == H.Forced(samples, delay, k)
  {
    seq(|samples|, k requires 0 <= k < |samples| => H.Forced(samples, delay, k))
  }

  function Cut(layouts: seq<Layout>, forced: seq<bool>): (r: seq<Layout>)
    requires |layouts| == |forced|
    ensures |r| == |layouts| && forall k | 0 <= k < |r| :: r[k] == if forced[k] then Split else layouts[k]
  {
    seq(|layouts|, k requires 0 <= k < |layouts| => if forced[k] then Split else layouts[k])
  }

  /** The layouts that come out, from what goes in. */
  lemma KeptLayouts(before: seq<Sample>, delay: real, after: seq<Sample>)
    requires H.TracksKept(before, delay, after)
    ensures Layouts(after) == Cut(Layouts(before), ForcedFlags(before, delay)) && Times(after) == Times(before)
  {
    forall k | 0 <= k < |before|
      ensures after[k].time == before[k].time
      ensures after[k].layout == if H.Forced(before, delay, k) then Split else before[k].layout
    {
      if |before| >= 2 && delay > 0.0 {
        assert after[k] == H.Tracked(H.HoldAt(before, delay, k), before[k], delay);
      }
    }
  }

  lemma LayoutsKeptIff(before: seq<Sample>, delay: real, after: seq<Sample>)
    requires H.TracksKept(before, delay, after)
    ensures Layouts(after) == Layouts(before) <==>
      forall k | 0 <= k < |before| && H.Forced(before, delay, k) :: before[k].layout == Split
  {
    KeptLayouts(before, delay, after);
    var layouts, cut := Layouts(before), Layouts(after);
    if layouts == cut {
      forall k | 0 <= k < |before| && H.Forced(before, delay, k) ensures before[k].layout == Split {
        assert cut[k] == layouts[k];
      }
    }
  }

  /** A fill run comes out whole exactly when none of its samples is forced. */
  lemma FillRunKeptIff(before: seq<Sample>, delay: real, after: seq<Sample>, a: nat, b: nat)
    requires H.TracksKept(before, delay, after) && IsRun(Layouts(before), a, b) && before[a].layout == Fill
    ensures |after| == |before|
    ensures IsRun(Layouts(after), a, b) && after[a].layout == Fill <==> forall k | a <= k < b :: !H.Forced(before, delay, k)
  {
    KeptLayouts(before, delay, after);
    var layouts, cut := Layouts(before), Layouts(after);
    if IsRun(cut, a, b) && cut[a] == Fill {
      forall k | a <= k < b ensures !H.Forced(before, delay, k) {
        assert cut[k] == cut[a];
      }
    }
  }

  /** A split run comes out whole exactly when neither sample next to it is forced. */
  lemma SplitRunKeptIff(before: seq<Sample>, delay: real, after: seq<Sample>, a: nat, b: nat)
    requires H.TracksKept(before, delay, after) && IsRun(Layouts(before), a, b) && before[a].layout == Split
    ensures |after| == |before|
    ensures IsRun(Layouts(after), a, b) <==>
      (a == 0 || !H.Forced(before, delay, a - 1)) && (b == |before| || !H.Forced(before, delay, b))
  {
    KeptLayouts(before, delay, after);
    var layouts := Layouts(before);
    assert forall k | a <= k < b :: layouts[k] == Split;
  }

  // ----- run lengths

  /** No interior fill or split run is followed too soon. */
  ghost predicate RunsLong(layouts: seq<Layout>, times: seq<real>, minimum: real)
    requires |layouts| == |times|
  {
    forall a: nat, b: nat | IsRun(layouts, a, b) :: !L.ShortInside(layouts, times, minimum, a, b)
  }

  /** An interior stretch of fill samples none of which is forced, as long as it gets. */
  ghost predicate FillLeft(layouts: seq<Layout>, forced: seq<bool>, a: nat, b: nat)
    requires |layouts| == |forced|
  {
    && 0 < a < b < |layouts|
    && (forall k | a <= k < b :: layouts[k] == Fill && !forced[k])
    && (forced[a - 1] || layouts[a - 1] != Fill) && (forced[b] || layouts[b] != Fill)
  }

  /** An interior stretch of samples that become split, with no split sample next to it. */
  ghost predicate SplitAlone(layouts: seq<Layout>, forced: seq<bool>, a: nat, b: nat)
    requires |layouts| == |forced|
  {
    && 0 < a < b < |layouts|
    && (forall k | a <= k < b :: forced[k] && layouts[k] != Split)
    && !forced[a - 1] && layouts[a - 1] != Split && !forced[b] && layouts[b] != Split
  }

  ghost predicate CutsLong(layouts: seq<Layout>, forced: seq<bool>, times: seq<real>, minimum: real)
    requires |layouts| == |forced| == |times|
  {
    forall a: nat, b: nat | FillLeft(layouts, forced, a, b) || SplitAlone(layouts, forced, a, b) ::
      times[b] - times[a] >= minimum
  }

  /** A stretch of either kind is a run that comes out. */
  lemma StretchIsRun(layouts: seq<Layout>, forced: seq<bool>, a: nat, b: nat)
    requires |layouts| == |forced| && (FillLeft(layouts, forced, a, b) || SplitAlone(layouts, forced, a, b))
    ensures IsRun(Cut(layouts, forced), a, b) && Cut(layouts, forced)[a] != Fit
  {
  }

  /** Any other interior fill or split run holds a whole split run of those that went in. */
  lemma OtherRunHoldsSplit(layouts: seq<Layout>, forced: seq<bool>, a: nat, b: nat) returns (c: nat, d: nat)
    requires |layouts| == |forced| && IsRun(Cut(layouts, forced), a, b) && 0 < a && b < |layouts|
    requires Cut(layouts, forced)[a] != Fit && !FillLeft(layouts, forced, a, b) && !SplitAlone(layouts, forced, a, b)
    ensures a <= c < d <= b && IsRun(layouts, c, d) && layouts[c] == Split
  {
    var cut := Cut(layouts, forced);
    assert cut[a - 1] != cut[a] && cut[b] != cut[a];
    if cut[a] == Fill {
      assert forall k | a <= k < b :: cut[k] == Fill;
      assert FillLeft(layouts, forced, a, b);
      assert false;
    }
    assert forall k | a <= k < b :: cut[k] == Split;
    var k :| a <= k < b && layouts[k] == Split;
    c, d := RunStart(layouts, k), RunEnd(layouts, k);
    RunAround(layouts, k);
  }

  /** When no run that goes in is short, none comes out short if and only if no stretch of fill
      that is left, and no stretch that becomes split on its own, is. */
  lemma CutRunsLongIff(layouts: seq<Layout>, forced: seq<bool>, times: seq<real>, minimum: real)
    requires |layouts| == |forced| == |times| && Nondecreasing(times) && RunsLong(layouts, times, minimum)
    ensures RunsLong(Cut(layouts, forced), times, minimum) <==> CutsLong(layouts, forced, times, minimum)
  {
    var cut := Cut(layouts, forced);
    if RunsLong(cut, times, minimum) {
      forall a: nat, b: nat | FillLeft(layouts, forced, a, b) || SplitAlone(layouts, forced, a, b)
        ensures times[b] - times[a] >= minimum
      {
        StretchIsRun(layouts, forced, a, b);
        assert !L.ShortInside(cut, times, minimum, a, b);
      }
    }
    if CutsLong(layouts, forced, times, minimum) {
      forall a: nat, b: nat | IsRun(cut, a, b) ensures !L.ShortInside(cut, times, minimum, a, b) {
        if 0 < a && b < |cut| && cut[a] != Fit && !FillLeft(layouts, forced, a, b) && !SplitAlone(layouts, forced, a, b) {
          var c, d := OtherRunHoldsSplit(layouts, forced, a, b);
          assert !L.ShortInside(layouts, times, minimum, c, d);
          assert times[a] <= times[c] && times[d] <= times[b];
        }
      }
    }
  }

  lemma SettledRunsLong(samples: seq<Sample>, minimum: real, settled: seq<Sample>)
    requires L.Settled(samples, minimum, settled)
    ensures RunsLong(Layouts(settled), Times(settled), minimum)
  {
    forall a: nat, b: nat | IsRun(Layouts(settled), a, b)
      ensures !L.ShortInside(Layouts(settled), Times(settled), minimum, a, b)
    {
      if 0 < a && b < |settled| && settled[a].layout != Fit {
        L.SettledRunsAreLong(samples, minimum, settled, a, b);
      }
    }
  }

  /** The guarantee of the settled list survives the last pass if and only if no stretch of fill
      between forced samples, and no stretch that is forced to split away from other split
      samples, is short; all of it seen in the settled list. */
  lemma RunsStayLongIff(samples: seq<Sample>, minimum: real, settled: seq<Sample>, delay: real, after: seq<Sample>)
    requires L.Settled(samples, minimum, settled) && H.TracksKept(settled, delay, after)
    requires Nondecreasing(Times(settled))
    ensures RunsLong(Layouts(after), Times(after), minimum) <==>
      CutsLong(Layouts(settled), ForcedFlags(settled, delay), Times(settled), minimum)
  {
    SettledRunsLong(samples, minimum, settled);
    KeptLayouts(settled, delay, after);
    CutRunsLongIff(Layouts(settled), ForcedFlags(settled, delay), Times(settled), minimum);
  }
}
