/** From detections to framed samples: the labels, the chain of passes, and what holds of
    every sample at its end. */
module CompositionPlan {
  import opened Common
  import opened CompositionSamples
  import opened Sorting
  import W = CompositionWindows
  import L = CompositionLayouts
  import T = CompositionTracking
  import H = CompositionHysteresis
  import C = CompositionCuts
  import K = CompositionKeyframes
  import S = CompositionScenes

  /** One sampled frame: its subject boxes, best first, usable and merged. */
  datatype Frame = Frame(
    time: real, boxes: seq<Box>, activeSpeakerConfidence: real, aiCrossTalk: bool, aiCovered: bool, x: real, y: real)

  function FirstLayout(frame: Frame, unreliable: bool, minimumConfidence: real): Layout {
    if frame.aiCrossTalk && |frame.boxes| >= 2 then Split
    else if frame.boxes == [] || unreliable then Fit
    else if |frame.boxes| >= 2 && frame.activeSpeakerConfidence < minimumConfidence then Split
    else Fill
  }

  /** `isSafe` says whether a crop around a subject stays inside the safe zone. A frame fills
      the screen exactly when its best subject can be cropped safely, nothing speaks against
      that subject, and it is shown split only with two people. */
  function Label(frame: Frame, unreliable: bool, minimumConfidence: real, isSafe: Box -> bool): (r: Sample)
    ensures r.layout == Fill <==>
      && frame.boxes != [] && isSafe(frame.boxes[0]) && !unreliable
      && (|frame.boxes| == 1 || (!frame.aiCrossTalk && frame.activeSpeakerConfidence >= minimumConfidence))
    ensures r.layout == Split ==> |frame.boxes| >= 2
    ensures r.framingSafe && (r.framingFallback ==> r.layout != Fill && !r.fillSafe)
    ensures r.time == frame.time && r.aiCovered == frame.aiCovered && !r.crossTalk && !r.trackingHeld
    ensures |frame.boxes| <= 2 ==> r.boxes == frame.boxes
    ensures |frame.boxes| > 2 ==> r.boxes == [frame.boxes[0], frame.boxes[1]]
    ensures r.fillSafe <==> frame.boxes != [] && isSafe(frame.boxes[0])
    ensures frame.boxes == [] ==> r.focusX == frame.x && r.focusY == frame.y && r.activeTrackId == None
    ensures r.confidence >= frame.activeSpeakerConfidence && r.confidence >= (if |frame.boxes| == 1 then 0.72 else 0.45)
    ensures r.confidence in {frame.activeSpeakerConfidence, 0.72, 0.45}
  {
    var first := FirstLayout(frame, unreliable, minimumConfidence);
    var n := |frame.boxes|;
    var safe := n > 0 && isSafe(frame.boxes[0]);
    var fallback := first == Fill && !safe;
    var layout := if fallback then if n >= 2 then Split else Fit else first;
    var focus := if n > 0 then H.SubjectFocus(frame.boxes[0]) else (frame.x, frame.y);
    Sample(frame.time, layout, Max(frame.activeSpeakerConfidence, if n == 1 then 0.72 else 0.45), focus.0, focus.1,
           if n > 2 then frame.boxes[..2] else frame.boxes,
           safe, layout != Fill || safe, fallback, frame.aiCovered, false, false,
           if n > 0 then frame.boxes[0].trackId else None)
  }

  const DETECTION_WINDOW_SECONDS := 2.0
  const MINIMUM_DETECTION_RATE := 0.35

  predicate InOrder(frames: seq<Frame>) {
    forall i, j | 0 <= i <= j < |frames| :: frames[i].time <= frames[j].time
  }

  function FrameTimes(frames: seq<Frame>): (r: seq<real>)
    ensures |r| == |frames| && forall i | 0 <= i < |r| :: r[i] == frames[i].time
  {
    seq(|frames|, i requires 0 <= i < |frames| => frames[i].time)
  }

  /** Somebody is seen. */
  function UsableFlags(frames: seq<Frame>): (r: seq<bool>)
    ensures |r| == |frames| && forall i | 0 <= i < |r| :: r[i] == (frames[i].boxes != [])
  {
    seq(|frames|, i requires 0 <= i < |frames| => frames[i].boxes != [])
  }

  /** Somebody is seen in fewer than 35 % of the frames up to one second away. */
  ghost predicate Unreliable(frames: seq<Frame>, i: nat)
    requires i < |frames|
  {
    W.Rate(FrameTimes(frames), UsableFlags(frames), i, DETECTION_WINDOW_SECONDS / 2.0) < MINIMUM_DETECTION_RATE
  }

  /** The frames up to one second away, and those of them in which somebody is seen. */
  ghost function Around(frames: seq<Frame>, i: nat): set<nat>
    requires i < |frames|
  {
    set j: nat | j < |frames| && frames[j].time - frames[i].time <= 1.0 && frames[i].time - frames[j].time <= 1.0
  }

  ghost function SeenAround(frames: seq<Frame>, i: nat): set<nat>
    requires i < |frames|
  {
    set j: nat | j < |frames| && frames[j].time - frames[i].time <= 1.0 && frames[i].time - frames[j].time <= 1.0 && frames[j].boxes != []
  }

  lemma UnreliableIff(frames: seq<Frame>, i: nat)
    requires i < |frames|
    ensures Unreliable(frames, i) <==> |SeenAround(frames, i)| as real < 0.35 * |Around(frames, i)| as real
  {
    var times, usable := FrameTimes(frames), UsableFlags(frames);
    assert W.NearSet(times, i, 1.0) == Around(frames, i);
    assert W.UsableNear(times, usable, i, 1.0) == SeenAround(frames, i);
    assert i in Around(frames, i);
    Quotient(|SeenAround(frames, i)| as real, |Around(frames, i)| as real);
  }

  lemma Quotient(x: real, y: real)
    requires y > 0.0
    ensures x / y < 0.35 <==> x < 0.35 * y
  {
    var r := x / y;
    assert r * y == x && (r - 0.35) * y == x - 0.35 * y;
    if r >= 0.35 { T.NotNegative(r - 0.35, y); } else { T.Positive(0.35 - r, y); assert (0.35 - r) * y == 0.35 * y - x; }
  }

  ghost function Labels(frames: seq<Frame>, minimumConfidence: real, isSafe: Box -> bool): (r: seq<Sample>)
    ensures |r| == |frames|
    ensures forall i | 0 <= i < |r| :: r[i] == Label(frames[i], Unreliable(frames, i), minimumConfidence, isSafe)
  {
    seq(|frames|, i requires 0 <= i < |frames| => Label(frames[i], Unreliable(frames, i), minimumConfidence, isSafe))
  }

  method UnreliableFlags(frames: seq<Frame>) returns (flags: seq<bool>)
    requires InOrder(frames)
    ensures |flags| == |frames| && forall i | 0 <= i < |frames| :: flags[i] == Unreliable(frames, i)
  {
    var windowRates, _ := W.WindowedUsableRates(FrameTimes(frames), UsableFlags(frames), DETECTION_WINDOW_SECONDS);
    flags := seq(|frames|, i requires 0 <= i < |frames| => windowRates[i] < MINIMUM_DETECTION_RATE);
  }

  /** The windows are found by sliding; what counts is the share within each. */
  method LabelFrames(frames: seq<Frame>, minimumConfidence: real, isSafe: Box -> bool) returns (labeled: seq<Sample>)
    requires InOrder(frames)
    ensures labeled == Labels(frames, minimumConfidence, isSafe)
  {
    var unreliable := UnreliableFlags(frames);
    labeled := [];
    var i := 0;
    while i < |frames|
      invariant 0 <= i <= |frames| && |labeled| == i
      invariant forall k | 0 <= k < i :: labeled[k] == Label(frames[k], unreliable[k], minimumConfidence, isSafe)
    {
      labeled := labeled + [Label(frames[i], unreliable[i], minimumConfidence, isSafe)];
      i := i + 1;
    }
  }

  // ----- what a sample looks at

  const BRIDGE_SECONDS := 0.5

  predicate LooksAtOwn(sample: Sample) {
    && sample.boxes != []
    && (sample.focusX, sample.focusY) == H.SubjectFocus(sample.boxes[0])
    && sample.activeTrackId == sample.boxes[0].trackId
  }

  /** The sample lies in a bridged gap: its focus is between the two people seen right before
      and right after it, who are one person by their track, half a second apart at most. */
  ghost predicate LooksBetween(labeled: seq<Sample>, i: nat, sample: Sample) {
    exists a: nat, b: nat :: BridgedFrom(labeled, i, sample, a, b)
  }

  ghost predicate BridgedFrom(labeled: seq<Sample>, i: nat, sample: Sample, a: nat, b: nat) {
    && a < i < b < |labeled|
    && (forall k | a < k < b :: labeled[k].boxes == [])
    && labeled[b].time - labeled[a].time <= 0.5 + 0.000001
    && LooksAtOwn(labeled[a]) && LooksAtOwn(labeled[b]) && labeled[a].fillSafe && labeled[b].fillSafe
    && labeled[a].activeTrackId == labeled[b].activeTrackId == sample.activeTrackId
    && Between(sample.focusX, labeled[a].focusX, labeled[b].focusX)
    && Between(sample.focusY, labeled[a].focusY, labeled[b].focusY)
  }

  ghost predicate FocusOk(labeled: seq<Sample>, i: nat, sample: Sample)
    requires i < |labeled|
  {
    if sample.boxes != [] then LooksAtOwn(sample) && !sample.trackingHeld && sample.fillSafe == labeled[i].fillSafe
    else if sample.trackingHeld then LooksBetween(labeled, i, sample)
    else !sample.fillSafe
  }

  ghost predicate SameFrames(labeled: seq<Sample>, values: seq<Sample>) {
    && |values| == |labeled|
    && forall i | 0 <= i < |values| :: values[i].boxes == labeled[i].boxes && values[i].time == labeled[i].time
  }

  ghost predicate AllFocusOk(labeled: seq<Sample>, values: seq<Sample>) {
    SameFrames(labeled, values) && forall i | 0 <= i < |values| :: FocusOk(labeled, i, values[i])
  }

  /** Same focus, boxes, track and safety; layout and flags may differ. */
  predicate SameView(s: Sample, t: Sample) {
    && s.boxes == t.boxes && s.focusX == t.focusX && s.focusY == t.focusY && s.time == t.time
    && s.trackingHeld == t.trackingHeld && s.fillSafe == t.fillSafe && s.activeTrackId == t.activeTrackId
  }

  ghost predicate SameViews(before: seq<Sample>, after: seq<Sample>) {
    |before| == |after| && forall i | 0 <= i < |before| :: SameView(before[i], after[i])
  }

  lemma FocusCarriesOver(labeled: seq<Sample>, before: seq<Sample>, after: seq<Sample>)
    requires AllFocusOk(labeled, before) && SameViews(before, after)
    ensures AllFocusOk(labeled, after)
  {
    forall i | 0 <= i < |after|
      ensures FocusOk(labeled, i, after[i]) && after[i].boxes == labeled[i].boxes && after[i].time == labeled[i].time
    {
      assert FocusOk(labeled, i, before[i]) && SameView(before[i], after[i]);
      if LooksBetween(labeled, i, before[i]) {
        var a: nat, b: nat :| BridgedFrom(labeled, i, before[i], a, b);
        assert BridgedFrom(labeled, i, after[i], a, b);
      }
    }
  }

  /** No person has been held yet. */
  ghost predicate NoneHeld(samples: seq<Sample>) {
    forall i | 0 <= i < |samples| :: !samples[i].trackingHeld
  }

  lemma LabelsFocusOk(frames: seq<Frame>, minimumConfidence: real, isSafe: Box -> bool)
    ensures var labeled := Labels(frames, minimumConfidence, isSafe); AllFocusOk(labeled, labeled) && NoneHeld(labeled)
  {
  }

  lemma CrossTalkKeepsViews(samples: seq<Sample>, flags: seq<bool>, values: seq<Sample>)
    requires T.CrossTalkMarked(samples, flags, values)
    ensures SameViews(samples, values)
  {
    forall i | 0 <= i < |samples| ensures SameView(samples[i], values[i]) {
      RunAround(flags, i);
      assert T.RunTalks(samples, flags, values, RunStart(flags, i), RunEnd(flags, i));
    }
  }

  lemma BridgeKeepsTimes(samples: seq<Sample>, flags: seq<bool>, maximum: real, values: seq<Sample>, i: nat)
    requires T.Bridged(samples, flags, maximum, values) && i < |samples|
    ensures var a, b := RunStart(flags, i), RunEnd(flags, i);
      values[i] == samples[i] ||
      (flags[i] && T.Continuous(samples, maximum, a, b) && values[i] == T.Held(samples[a - 1], samples[b], samples[i]))
  {
    RunAround(flags, i);
    assert T.RunBridged(samples, flags, maximum, values, RunStart(flags, i), RunEnd(flags, i));
  }

  lemma BridgeFocusOk(labeled: seq<Sample>, samples: seq<Sample>, values: seq<Sample>)
    requires T.Bridged(samples, T.GapFlags(samples), BRIDGE_SECONDS, values) && Nondecreasing(Times(samples))
    requires AllFocusOk(labeled, samples) && NoneHeld(samples) && SameViews(labeled, samples)
    ensures AllFocusOk(labeled, values)
  {
    forall i | 0 <= i < |values|
      ensures FocusOk(labeled, i, values[i]) && values[i].boxes == labeled[i].boxes && values[i].time == labeled[i].time
    {
      BridgeKeepsTimes(samples, T.GapFlags(samples), BRIDGE_SECONDS, values, i);
      assert FocusOk(labeled, i, samples[i]);
      if values[i] != samples[i] {
        HeldFocusOk(labeled, samples, i, values[i]);
      }
    }
  }

  lemma HeldFocusOk(labeled: seq<Sample>, samples: seq<Sample>, i: nat, value: Sample)
    requires i < |samples| && Nondecreasing(Times(samples))
    requires AllFocusOk(labeled, samples) && NoneHeld(samples) && SameViews(labeled, samples)
    requires var flags := T.GapFlags(samples);
      var a, b := RunStart(flags, i), RunEnd(flags, i);
      flags[i] && T.Continuous(samples, BRIDGE_SECONDS, a, b) && value == T.Held(samples[a - 1], samples[b], samples[i])
    ensures FocusOk(labeled, i, value)
  {
    var flags := T.GapFlags(samples);
    var a, b := RunStart(flags, i) - 1, RunEnd(flags, i);
    assert T.Gap(samples[i]);
    assert FocusOk(labeled, a, samples[a]) && FocusOk(labeled, b, samples[b]);
    assert SameView(labeled[a], samples[a]) && SameView(labeled[b], samples[b]);
    var times := Times(samples);
    assert times[a] <= times[i] <= times[b];
    T.HeldBetween(samples[a], samples[b], samples[i]);
    assert LooksAtOwn(labeled[a]) && LooksAtOwn(labeled[b]);
    forall k | a < k < b ensures labeled[k].boxes == [] {
      assert flags[k] == flags[i] && T.Gap(samples[k]) && SameView(labeled[k], samples[k]);
    }
    assert BridgedFrom(labeled, i, value, a, b);
  }

  // ----- the chain

  const MINIMUM_SECONDS := 0.6

  ghost predicate FramingHolds(values: seq<Sample>) {
    forall i | 0 <= i < |values| :: values[i].framingSafe && (values[i].layout == Fill ==> values[i].fillSafe)
  }

  /** Every sample is framed safely, and a fill sample looks at the best subject of its own
      frame, whose crop is safe, or between the two such sightings that bound its gap. */
  ghost predicate WellFramed(labeled: seq<Sample>, values: seq<Sample>) {
    && SameFrames(labeled, values)
    && FramingHolds(values)
    && forall i | 0 <= i < |values| && values[i].layout == Fill ::
      (LooksAtOwn(values[i]) && labeled[i].fillSafe) || LooksBetween(labeled, i, values[i])
  }

  lemma TracksKeepFraming(labeled: seq<Sample>, before: seq<Sample>, delay: real, after: seq<Sample>)
    requires FramingHolds(before) && AllFocusOk(labeled, before) && |after| == |before|
    requires H.TracksKept(before, delay, after)
    ensures WellFramed(labeled, after)
  {
    forall i | 0 <= i < |after|
      ensures after[i].framingSafe && (after[i].layout == Fill ==> after[i] == before[i])
      ensures after[i].boxes == labeled[i].boxes && after[i].time == labeled[i].time
    {
      if after != before {
        H.TrackedIsSafe(H.HoldAt(before, delay, i), before[i], delay);
        assert FocusOk(labeled, i, before[i]);
      }
    }
    forall i | 0 <= i < |after| && after[i].layout == Fill
      ensures after[i].fillSafe && ((LooksAtOwn(after[i]) && labeled[i].fillSafe) || LooksBetween(labeled, i, after[i]))
    {
      assert FocusOk(labeled, i, before[i]) && before[i].framingSafe;
    }
  }

  lemma SettleKeepsFraming(before: seq<Sample>, minimum: real, after: seq<Sample>)
    requires FramingHolds(before) && L.Settled(before, minimum, after)
    ensures FramingHolds(after) && SameViews(before, after)
  {
    forall i | 0 <= i < |after|
      ensures SameView(before[i], after[i]) && after[i].framingSafe && (after[i].layout == Fill ==> after[i].fillSafe)
    {
      L.SettledKeepsTimes(before, minimum, after, i);
      assert before[i].framingSafe;
    }
  }

  lemma SameTimes(x: seq<Sample>, y: seq<Sample>)
    requires SameViews(x, y)
    ensures Times(x) == Times(y)
  {
    forall i | 0 <= i < |x| ensures x[i].time == y[i].time {
      assert SameView(x[i], y[i]);
    }
  }

  lemma EnforceKeepsViews(before: seq<Sample>, after: seq<Sample>)
    requires |after| == |before| && forall i | 0 <= i < |after| :: after[i] == L.Safe(before[i])
    ensures SameViews(before, after)
  {
  }

  function SafeAll(samples: seq<Sample>): (r: seq<Sample>)
    ensures |r| == |samples| && forall i | 0 <= i < |r| :: r[i] == L.Safe(samples[i])
  {
    seq(|samples|, i requires 0 <= i < |samples| => L.Safe(samples[i]))
  }

  /** The passes but the last, with what lies between them. */
  ghost predicate Passes(labels: seq<Sample>, marked: seq<Sample>, bridged: seq<Sample>, stable: seq<Sample>, settled: seq<Sample>) {
    && T.CrossTalkMarked(labels, T.TalkFlags(labels), marked)
    && T.Bridged(marked, T.GapFlags(marked), BRIDGE_SECONDS, bridged)
    && SettledFrom(bridged, stable, settled)
  }

  ghost predicate SettledFrom(bridged: seq<Sample>, stable: seq<Sample>, settled: seq<Sample>) {
    && L.OnlyRelaid(bridged, stable) && L.Stabilized(Layouts(bridged), Times(bridged), MINIMUM_SECONDS, Layouts(stable))
    && L.Settled(SafeAll(stable), MINIMUM_SECONDS, settled)
  }

  ghost predicate Settles(labels: seq<Sample>, settled: seq<Sample>) {
    exists marked, bridged, stable :: Passes(labels, marked, bridged, stable, settled)
  }

  /** The passes of `composition_plan` from the labels to the framed samples, in their order. */
  method FrameSamples(frames: seq<Frame>, minimumConfidence: real, focusSwitchDelay: real, isSafe: Box -> bool)
    returns (values: seq<Sample>, ghost settled: seq<Sample>)
    requires InOrder(frames)
    ensures WellFramed(Labels(frames, minimumConfidence, isSafe), values)
    ensures Settles(Labels(frames, minimumConfidence, isSafe), settled) && H.TracksKept(settled, focusSwitchDelay, values)
  {
    var labeled := LabelFrames(frames, minimumConfidence, isSafe);
    ghost var labels := labeled;
    LabelsFocusOk(frames, minimumConfidence, isSafe);
    labeled := T.DetectCrossTalk(labeled);
    CrossTalkKeepsViews(labels, T.TalkFlags(labels), labeled);
    FocusCarriesOver(labels, labels, labeled);
    ghost var marked := labeled;
    NoneHeldCarriesOver(labels, marked);
    labeled := T.BridgeSafeFillGaps(labeled, BRIDGE_SECONDS);
    SameTimes(labels, marked);
    BridgeFocusOk(labels, marked, labeled);
    ghost var bridged, stable := labeled, [];
    values, stable, settled := SettleLayouts(labeled, focusSwitchDelay, labels);
    assert Passes(labels, marked, bridged, stable, settled);
  }

  lemma NoneHeldCarriesOver(before: seq<Sample>, after: seq<Sample>)
    requires SameViews(before, after) && NoneHeld(before)
    ensures NoneHeld(after)
  {
    forall i | 0 <= i < |after| ensures !after[i].trackingHeld {
      assert SameView(before[i], after[i]);
    }
  }

  /** The second half of the chain, from the bridged samples on. */
  method SettleLayouts(bridged: seq<Sample>, focusSwitchDelay: real, ghost labels: seq<Sample>)
    returns (labeled: seq<Sample>, ghost stable: seq<Sample>, ghost settled: seq<Sample>)
    requires AllFocusOk(labels, bridged)
    ensures |labeled| == |bridged| && WellFramed(labels, labeled)
    ensures SettledFrom(bridged, stable, settled) && H.TracksKept(settled, focusSwitchDelay, labeled)
  {
    labeled := L.StabilizeLayouts(bridged, MINIMUM_SECONDS);
    assert SameViews(bridged, labeled);
    FocusCarriesOver(labels, bridged, labeled);
    stable := labeled;
    labeled := L.EnforceSafeLayouts(labeled);
    EnforceKeepsViews(stable, labeled);
    FocusCarriesOver(labels, stable, labeled);
    ghost var safe := labeled;
    assert safe == SafeAll(stable);
    labeled := L.SettleShortUnsafeRuns(labeled, MINIMUM_SECONDS);
    SettleKeepsFraming(safe, MINIMUM_SECONDS, labeled);
    FocusCarriesOver(labels, safe, labeled);
    settled := labeled;
    labeled := H.StabilizeActiveTracks(labeled, focusSwitchDelay);
    TracksKeepFraming(labels, settled, focusSwitchDelay, labeled);
  }

  // ----- run lengths at the end of the chain

  lemma PassesKeepTimes(labels: seq<Sample>, marked: seq<Sample>, bridged: seq<Sample>, stable: seq<Sample>, settled: seq<Sample>)
    requires Passes(labels, marked, bridged, stable, settled)
    ensures Times(settled) == Times(labels)
  {
    CrossTalkKeepsViews(labels, T.TalkFlags(labels), marked);
    forall i | 0 <= i < |labels| ensures settled[i].time == labels[i].time {
      assert SameView(labels[i], marked[i]);
      BridgeKeepsTimes(marked, T.GapFlags(marked), BRIDGE_SECONDS, bridged, i);
      L.SettledKeepsTimes(SafeAll(stable), MINIMUM_SECONDS, settled, i);
    }
  }

  /** No fill or split run inside the clip is short at the end of the chain if and only if, in
      the list before the last pass, no stretch of fill left between forced samples is, and no
      stretch forced to split away from other split samples. */
  lemma FramedRunsLongIff(labels: seq<Sample>, settled: seq<Sample>, delay: real, values: seq<Sample>)
    requires Nondecreasing(Times(labels)) && Settles(labels, settled) && H.TracksKept(settled, delay, values)
    ensures C.RunsLong(Layouts(values), Times(values), 0.6) <==>
      C.CutsLong(Layouts(settled), C.ForcedFlags(settled, delay), Times(settled), 0.6)
  {
    var marked, bridged, stable :| Passes(labels, marked, bridged, stable, settled);
    PassesKeepTimes(labels, marked, bridged, stable, settled);
    C.RunsStayLongIff(SafeAll(stable), MINIMUM_SECONDS, settled, delay, values);
  }

  /** Two people in three frames, of whom the second is the active one in the frame in the middle. */
  ghost predicate ShortGlance(samples: seq<Sample>) {
    && |samples| == 3 && Layouts(samples) == [Fill, Fill, Fill] && Times(samples) == [0.0, 1.0, 1.1]
    && H.Proposals(samples) == [Some(1), Some(2), Some(1)] && |samples[1].boxes| >= 2
  }

  /** The last pass can make a run of a single sample. */
  lemma TracksCanCutRuns(before: seq<Sample>, after: seq<Sample>)
    requires ShortGlance(before) && H.TracksKept(before, 0.25, after)
    ensures L.Settled(before, MINIMUM_SECONDS, before) && Layouts(after) == [Fill, Split, Fill]
    ensures !C.RunsLong(Layouts(after), Times(after), MINIMUM_SECONDS)
  {
    OneRunSettled(before);
    C.KeptLayouts(before, 0.25, after);
    var proposals, times := H.Proposals(before), Times(before);
    assert proposals[0] == Some(1) && proposals[1] == Some(2) && proposals[2] == Some(1) && times[1] == 1.0;
    assert H.HoldAt(before, 0.25, 0) == H.Hold(Some(1), None, 0.0);
    assert H.HoldAt(before, 0.25, 1) == H.Hold(Some(1), None, 0.0);
    assert H.HoldAt(before, 0.25, 2) == H.Hold(Some(1), Some(2), 1.0);
    assert IsRun(Layouts(after), 1, 2);
    assert L.ShortInside(Layouts(after), Times(after), MINIMUM_SECONDS, 1, 2);
  }

  lemma OneRunSettled(samples: seq<Sample>)
    requires forall i | 0 <= i < |samples| :: Layouts(samples)[i] == Fill
    ensures L.Settled(samples, MINIMUM_SECONDS, samples)
  {
  }

  /** Three frames of two people with a clear speaker, who can be cropped safely. */
  ghost predicate GlanceFrames(frames: seq<Frame>, minimumConfidence: real, isSafe: Box -> bool) {
    && |frames| == 3 && FrameTimes(frames) == [0.0, 1.0, 1.1]
    && (forall i | 0 <= i < 3 :: Clear(frames[i], minimumConfidence, isSafe))
    && frames[0].boxes[0].trackId == frames[2].boxes[0].trackId == Some(1) && frames[1].boxes[0].trackId == Some(2)
  }

  predicate Clear(frame: Frame, minimumConfidence: real, isSafe: Box -> bool) {
    && |frame.boxes| == 2 && isSafe(frame.boxes[0]) && frame.boxes[1].activity < T.ACTIVITY_FLOOR
    && !frame.aiCrossTalk && frame.activeSpeakerConfidence >= minimumConfidence
  }

  lemma EverybodySeen(frames: seq<Frame>, i: nat)
    requires i < |frames| && forall k | 0 <= k < |frames| :: frames[k].boxes != []
    ensures !Unreliable(frames, i)
  {
    var times, usable, radius := FrameTimes(frames), UsableFlags(frames), DETECTION_WINDOW_SECONDS / 2.0;
    assert W.NearSet(times, i, radius) == W.UsableNear(times, usable, i, radius);
    assert i in W.NearSet(times, i, radius);
  }

  lemma QuietSecond(sample: Sample)
    requires |sample.boxes| == 2 && sample.boxes[1].activity < T.ACTIVITY_FLOOR
    ensures !T.CrossTalkSample(sample)
  {
    var activities := T.Activities(sample.boxes);
    assert activities[1] in activities;
    SortKeepsElements(T.Higher, activities, activities[1]);
    var top := StableSort(T.Higher, activities);
    assert activities[1] in top;
    SortPermutes(T.Higher, activities);
    assert |top| == |multiset(top)| == |activities|;
  }

  /** Samples that fill the screen safely, each with somebody in it and nobody else talking. */
  ghost predicate Plain(samples: seq<Sample>) {
    && samples != []
    && (forall i | 0 <= i < |samples| ::
          samples[i].layout == Fill && samples[i].boxes != [] && samples[i].fillSafe && samples[i].framingSafe)
    && (forall i | 0 <= i < |samples| :: !T.CrossTalkSample(samples[i]))
  }

  lemma PlainPasses(labels: seq<Sample>, marked: seq<Sample>, bridged: seq<Sample>, stable: seq<Sample>, settled: seq<Sample>)
    requires Passes(labels, marked, bridged, stable, settled) && Plain(labels)
    requires labels[|labels| - 1].time - labels[0].time >= MINIMUM_SECONDS
    ensures settled == labels
  {
    assert IsRun(T.TalkFlags(labels), 0, |labels|);
    assert T.RunTalks(labels, T.TalkFlags(labels), marked, 0, |labels|);
    assert marked == labels;
    assert IsRun(T.GapFlags(marked), 0, |labels|);
    assert T.RunBridged(marked, T.GapFlags(marked), BRIDGE_SECONDS, bridged, 0, |labels|);
    assert bridged == marked;
    PlainSettles(bridged, stable, settled);
  }

  lemma PlainSettles(bridged: seq<Sample>, stable: seq<Sample>, settled: seq<Sample>)
    requires SettledFrom(bridged, stable, settled) && Plain(bridged)
    requires bridged[|bridged| - 1].time - bridged[0].time >= MINIMUM_SECONDS
    ensures settled == bridged
  {
    assert IsRun(Layouts(bridged), 0, |bridged|);
    assert L.RunReplaced(Layouts(bridged), Times(bridged), MINIMUM_SECONDS, Layouts(stable), 0, |bridged|);
    forall i | 0 <= i < |stable| ensures stable[i] == bridged[i] {
      assert Layouts(stable)[i] == Fill;
    }
    assert SafeAll(stable) == stable;
    assert IsRun(Layouts(stable), 0, |stable|);
    assert L.RunSettled(SafeAll(stable), MINIMUM_SECONDS, settled, 0, |stable|);
  }

  /** Such frames reach the last pass as they are, and come out cut. */
  lemma FramesCanCutRuns(frames: seq<Frame>, minimumConfidence: real, isSafe: Box -> bool, settled: seq<Sample>, after: seq<Sample>)
    requires GlanceFrames(frames, minimumConfidence, isSafe)
    requires Settles(Labels(frames, minimumConfidence, isSafe), settled) && H.TracksKept(settled, 0.25, after)
    ensures Layouts(after) == [Fill, Split, Fill] && !C.RunsLong(Layouts(after), Times(after), 0.6)
  {
    var labels := Labels(frames, minimumConfidence, isSafe);
    GlanceLabels(frames, minimumConfidence, isSafe, labels);
    var marked, bridged, stable :| Passes(labels, marked, bridged, stable, settled);
    PlainPasses(labels, marked, bridged, stable, settled);
    TracksCanCutRuns(settled, after);
  }

  lemma GlanceLabels(frames: seq<Frame>, minimumConfidence: real, isSafe: Box -> bool, labels: seq<Sample>)
    requires GlanceFrames(frames, minimumConfidence, isSafe) && labels == Labels(frames, minimumConfidence, isSafe)
    ensures Plain(labels) && ShortGlance(labels) && labels[2].time - labels[0].time >= MINIMUM_SECONDS
  {
    forall i | 0 <= i < 3 ensures Shows(labels[i], frames[i]) {
      ClearLabel(frames, minimumConfidence, isSafe, i);
    }
    ShownGlance(frames, labels, FrameTimes(frames));
  }

  /** The label of a clear frame. */
  ghost predicate Shows(sample: Sample, frame: Frame) {
    && frame.boxes != []
    && sample.layout == Fill && sample.fillSafe && sample.framingSafe && !T.CrossTalkSample(sample)
    && sample.boxes == frame.boxes && sample.time == frame.time && sample.activeTrackId == frame.boxes[0].trackId
  }

  lemma ShownGlance(frames: seq<Frame>, labels: seq<Sample>, times: seq<real>)
    requires |labels| == |frames| == 3 && (forall i | 0 <= i < 3 :: |frames[i].boxes| == 2 && Shows(labels[i], frames[i]))
    requires times == FrameTimes(frames) == [0.0, 1.0, 1.1]
    requires frames[0].boxes[0].trackId == frames[2].boxes[0].trackId == Some(1) && frames[1].boxes[0].trackId == Some(2)
    ensures Plain(labels) && ShortGlance(labels) && labels[2].time - labels[0].time >= MINIMUM_SECONDS
  {
    assert times[0] == 0.0 && times[1] == 1.0 && times[2] == 1.1;
    assert Shows(labels[0], frames[0]) && Shows(labels[1], frames[1]) && Shows(labels[2], frames[2]);
  }

  lemma ClearLabel(frames: seq<Frame>, minimumConfidence: real, isSafe: Box -> bool, i: nat)
    requires i < |frames| && forall k | 0 <= k < |frames| :: Clear(frames[k], minimumConfidence, isSafe)
    ensures Shows(Label(frames[i], Unreliable(frames, i), minimumConfidence, isSafe), frames[i])
  {
    assert Clear(frames[i], minimumConfidence, isSafe);
    EverybodySeen(frames, i);
    QuietSecond(Label(frames[i], Unreliable(frames, i), minimumConfidence, isSafe));
  }

  function FocusXs(samples: seq<Sample>): (r: seq<real>)
    ensures |r| == |samples| && forall i | 0 <= i < |r| :: r[i] == samples[i].focusX
  {
    seq(|samples|, i requires 0 <= i < |samples| => samples[i].focusX)
  }

  function FocusYs(samples: seq<Sample>): (r: seq<real>)
    ensures |r| == |samples| && forall i | 0 <= i < |r| :: r[i] == samples[i].focusY
  {
    seq(|samples|, i requires 0 <= i < |samples| => samples[i].focusY)
  }

  /** The camera after each sample, inside the frame. */
  ghost predicate FollowsSmoothly(keyframes: seq<K.Keyframe>, values: seq<Sample>, width: real, height: real) {
    && |keyframes| == |values|
    && forall i | 0 <= i < |values| ::
      keyframes[i] == K.Keyframe(K.Clamp(0.0, width, K.Position(FocusXs(values), width, i + 1)),
                                 K.Clamp(0.0, height, K.Position(FocusYs(values), height, i + 1)))
  }

  /** Frames inside the clip and 40 ms apart. */
  predicate Spaced(frames: seq<Frame>, clipStart: real, clipEnd: real) {
    && clipStart < clipEnd && frames != []
    && (forall i | 0 <= i < |frames| :: clipStart <= frames[i].time <= clipEnd)
    && (forall i, j | 0 <= i < j < |frames| :: frames[j].time - frames[i].time >= 0.04)
  }

  /** From frames to scenes: every scene is framed safely, their keyframes one after the other
      are the smoothed path of the framed samples, they switch layouts as often as the samples
      do, and they tile the clip when its frames are 40 ms apart. */
  method PlanScenes(frames: seq<Frame>, minimumConfidence: real, focusSwitchDelay: real, isSafe: Box -> bool,
      width: real, height: real, clipStart: real, clipEnd: real)
    returns (values: seq<Sample>, scenes: seq<S.Scene<K.Keyframe>>, ghost settled: seq<Sample>, ghost cuts: seq<nat>)
    requires InOrder(frames)
    ensures WellFramed(Labels(frames, minimumConfidence, isSafe), values)
    ensures Settles(Labels(frames, minimumConfidence, isSafe), settled) && H.TracksKept(settled, focusSwitchDelay, values)
    ensures forall k | 0 <= k < |scenes| :: scenes[k].framingSafe
    ensures S.AllShown(values, cuts, scenes)
    ensures forall k | 0 <= k < |scenes| && scenes[k].layout == Fill :: SafeToFill(values, cuts[k], cuts[k + 1])
    ensures FollowsSmoothly(S.AllKeyframes(scenes), values, width, height)
    ensures S.Switches(S.SceneLayouts(scenes)) == S.Switches(Layouts(values))
    ensures Spaced(frames, clipStart, clipEnd) ==>
      S.Tiles(scenes, clipStart, clipEnd) && ShownInTime(values, scenes)
  {
    values, settled := FrameSamples(frames, minimumConfidence, focusSwitchDelay, isSafe);
    var keyframes := K.SmoothKeyframes(FocusXs(values), FocusYs(values), width, height);
    scenes := S.Scenes(values, keyframes, clipStart, clipEnd);
    cuts :| S.AreScenes(values, keyframes, clipStart, clipEnd, cuts, scenes);
    ScenesFollow(values, keyframes, clipStart, clipEnd, cuts, scenes);
    if Spaced(frames, clipStart, clipEnd) {
      SpacedValues(frames, Labels(frames, minimumConfidence, isSafe), values, clipStart, clipEnd);
      S.ScenesTile(values, keyframes, clipStart, clipEnd, cuts, scenes);
      CoveringShows(values, keyframes, clipStart, clipEnd, cuts, scenes);
    }
  }

  lemma ScenesFollow(values: seq<Sample>, keyframes: seq<K.Keyframe>, clipStart: real, clipEnd: real,
      cuts: seq<nat>, scenes: seq<S.Scene<K.Keyframe>>)
    requires S.AreScenes(values, keyframes, clipStart, clipEnd, cuts, scenes) && FramingHolds(values)
    ensures forall k | 0 <= k < |scenes| :: scenes[k].framingSafe
    ensures S.AllShown(values, cuts, scenes)
    ensures forall k | 0 <= k < |scenes| && scenes[k].layout == Fill :: SafeToFill(values, cuts[k], cuts[k + 1])
    ensures S.AllKeyframes(scenes) == keyframes
    ensures S.Switches(S.SceneLayouts(scenes)) == S.Switches(Layouts(values))
  {
    AllScenesSafe(values, keyframes, clipStart, clipEnd, cuts, scenes);
    S.ScenesShow(values, keyframes, clipStart, clipEnd, cuts, scenes);
    FillIsSafe(values, cuts, scenes);
    KeptOverall(values, keyframes, clipStart, clipEnd, cuts, scenes);
  }

  lemma KeptOverall(values: seq<Sample>, keyframes: seq<K.Keyframe>, clipStart: real, clipEnd: real,
      cuts: seq<nat>, scenes: seq<S.Scene<K.Keyframe>>)
    requires S.AreScenes(values, keyframes, clipStart, clipEnd, cuts, scenes)
    ensures S.AllKeyframes(scenes) == keyframes
    ensures S.Switches(S.SceneLayouts(scenes)) == S.Switches(Layouts(values))
  {
    S.KeyframesKept(values, keyframes, clipStart, clipEnd, cuts, scenes);
    assert keyframes[..|values|] == keyframes;
    S.SwitchCountKept(values, keyframes, clipStart, clipEnd, cuts, scenes);
    assert Layouts(values)[..|values|] == Layouts(values);
  }

  lemma AllScenesSafe(values: seq<Sample>, keyframes: seq<K.Keyframe>, clipStart: real, clipEnd: real,
      cuts: seq<nat>, scenes: seq<S.Scene<K.Keyframe>>)
    requires S.AreScenes(values, keyframes, clipStart, clipEnd, cuts, scenes) && FramingHolds(values)
    ensures forall k | 0 <= k < |scenes| :: scenes[k].framingSafe
  {
    forall k | 0 <= k < |scenes| ensures scenes[k].framingSafe {
      S.ScenesSafe(values, keyframes, clipStart, clipEnd, cuts, scenes, k);
    }
  }

  ghost predicate SafeToFill(values: seq<Sample>, a: nat, b: nat) {
    b <= |values| && forall i | a <= i < b :: values[i].fillSafe
  }

  /** The scene on screen at a sample's time shows what that sample shows. */
  ghost predicate ShownInTime(values: seq<Sample>, scenes: seq<S.Scene<K.Keyframe>>) {
    forall k, i | 0 <= k < |scenes| && 0 <= i < |values| && scenes[k].start <= values[i].time < scenes[k].end ::
      && scenes[k].layout == values[i].layout
      && (scenes[k].layout != Split ==> scenes[k].activeTrackId == values[i].activeTrackId)
      && (scenes[k].layout == Fill ==> values[i].fillSafe)
  }

  lemma FillIsSafe(values: seq<Sample>, cuts: seq<nat>, scenes: seq<S.Scene<K.Keyframe>>)
    requires S.AllShown(values, cuts, scenes) && FramingHolds(values)
    ensures forall k | 0 <= k < |scenes| && scenes[k].layout == Fill :: SafeToFill(values, cuts[k], cuts[k + 1])
  {
    forall k | 0 <= k < |scenes| && scenes[k].layout == Fill ensures SafeToFill(values, cuts[k], cuts[k + 1]) {
      assert S.Shows(values, cuts[k], cuts[k + 1], scenes[k]);
    }
  }

  lemma CoveringShows(values: seq<Sample>, keyframes: seq<K.Keyframe>, clipStart: real, clipEnd: real,
      cuts: seq<nat>, scenes: seq<S.Scene<K.Keyframe>>)
    requires S.AreScenes(values, keyframes, clipStart, clipEnd, cuts, scenes) && S.AllShown(values, cuts, scenes)
    requires S.WellSpaced(values, clipStart, clipEnd) && FramingHolds(values)
    ensures ShownInTime(values, scenes)
  {
    forall k, i | 0 <= k < |scenes| && 0 <= i < |values| && scenes[k].start <= values[i].time < scenes[k].end
      ensures scenes[k].layout == values[i].layout
      ensures scenes[k].layout != Split ==> scenes[k].activeTrackId == values[i].activeTrackId
      ensures scenes[k].layout == Fill ==> values[i].fillSafe
    {
      S.ScenesCover(values, keyframes, clipStart, clipEnd, cuts, scenes, k, i);
      assert S.Shows(values, cuts[k], cuts[k + 1], scenes[k]);
    }
  }

  lemma SpacedValues(frames: seq<Frame>, labeled: seq<Sample>, values: seq<Sample>, clipStart: real, clipEnd: real)
    requires Spaced(frames, clipStart, clipEnd) && SameFrames(labeled, values) && |labeled| == |frames|
    requires forall i | 0 <= i < |frames| :: labeled[i].time == frames[i].time
    ensures values != [] && S.WellSpaced(values, clipStart, clipEnd)
  {
  }
}
