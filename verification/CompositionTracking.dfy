/** The passes that follow people through the samples: cross-talk, bridging of short
    detection gaps, and the hysteresis that holds on to one track. */
module CompositionTracking {
  import opened Common
  import opened CompositionSamples
  import opened Sorting

  // ----- detect_cross_talk

  const ACTIVITY_FLOOR := 0.45
  const ACTIVITY_DELTA := 0.2
  const SUSTAIN_SECONDS := 0.5

  function Activities(boxes: seq<Box>): (r: seq<real>)
    ensures |r| == |boxes| && forall i | 0 <= i < |r| :: r[i] == boxes[i].activity
  {
    seq(|boxes|, i requires 0 <= i < |boxes| => boxes[i].activity)
  }

  predicate CrossTalkSample(sample: Sample) {
    && !sample.aiCovered
    && |sample.boxes| >= 2
    && var top := StableSort(Higher, Activities(sample.boxes));
    && |top| >= 2 && top[0] >= ACTIVITY_FLOOR && top[1] >= ACTIVITY_FLOOR && top[0] - top[1] <= ACTIVITY_DELTA
  }

  /** Box i is the most active and box j the most active of the others. */
  predicate TopTwo(activities: seq<real>, i: nat, j: nat) {
    && i < |activities| && j < |activities| && i != j && activities[j] <= activities[i]
    && forall k | 0 <= k < |activities| && k != i :: activities[k] <= activities[j]
  }

  function Without(s: seq<real>, i: nat): seq<real>
    requires i < |s|
  {
    s[..i] + s[i + 1..]
  }

  lemma WithoutElements(s: seq<real>, i: nat)
    requires i < |s|
    ensures multiset(s) == multiset(Without(s, i)) + multiset{s[i]}
    ensures forall k | 0 <= k < |s| && k != i :: s[k] in Without(s, i)
    ensures forall x | x in Without(s, i) :: exists k :: 0 <= k < |s| && k != i && s[k] == x
  {
    var rest := Without(s, i);
    assert s == s[..i] + [s[i]] + s[i + 1..];
    forall k | 0 <= k < |s| && k != i ensures s[k] in rest {
      assert rest[if k < i then k else k - 1] == s[k];
    }
    forall x | x in rest ensures exists k :: 0 <= k < |s| && k != i && s[k] == x {
      var k :| 0 <= k < |rest| && rest[k] == x;
      assert s[if k < i then k else k + 1] == x;
    }
  }

  predicate Higher(x: real, y: real) {
    x >= y
  }

  lemma SameElements(s: seq<real>, t: seq<real>)
    requires multiset(s) == multiset(t)
    ensures forall x :: x in s <==> x in t
  {
    forall x ensures x in s <==> x in t {
      assert x in s <==> x in multiset(s);
      assert x in t <==> x in multiset(t);
    }
  }

  /** The two largest values, whatever order they come in. */
  lemma TopTwoAre(activities: seq<real>, top: seq<real>, i: nat, j: nat)
    requires multiset(top) == multiset(activities) && Sorted(Higher, top) && TopTwo(activities, i, j)
    ensures |top| >= 2 && top[0] == activities[i] && top[1] == activities[j]
  {
    assert |top| == |multiset(top)| == |activities|;
    FirstIsLargest(activities, top, i);
    RestSame(activities, top, i);
    var rest := Without(activities, i);
    WithoutElements(activities, i);
    assert activities[j] in rest;
    var m :| 0 <= m < |rest| && rest[m] == activities[j];
    FirstIsLargest(rest, top[1..], m);
  }

  lemma RestSame(activities: seq<real>, top: seq<real>, i: nat)
    requires multiset(top) == multiset(activities) && i < |activities| && top != [] && top[0] == activities[i]
    ensures multiset(top[1..]) == multiset(Without(activities, i))
  {
    WithoutElements(activities, i);
    assert top == [top[0]] + top[1..];
    assert multiset(top) == multiset{top[0]} + multiset(top[1..]);
    assert multiset(top[1..]) == multiset(top) - multiset{top[0]};
  }

  lemma FirstIsLargest(values: seq<real>, top: seq<real>, i: nat)
    requires multiset(top) == multiset(values) && Sorted(Higher, top) && i < |values|
    requires forall k | 0 <= k < |values| :: values[k] <= values[i]
    ensures top != [] && top[0] == values[i]
  {
    SameElements(values, top);
    assert |top| == |multiset(top)| == |values|;
    assert values[i] in values && top[0] in top;
    assert values[i] in top && top[0] in values;
    var k :| 0 <= k < |top| && top[k] == values[i];
    assert k > 0 ==> Higher(top[0], top[k]);
  }

  lemma SomeTopTwo(activities: seq<real>) returns (i: nat, j: nat)
    requires |activities| >= 2
    ensures TopTwo(activities, i, j)
  {
    i := Largest(activities);
    var rest := Without(activities, i);
    var k := Largest(rest);
    j := if k < i then k else k + 1;
    WithoutElements(activities, i);
  }

  lemma {:induction false} Largest(s: seq<real>) returns (i: nat)
    requires s != []
    ensures i < |s| && forall k | 0 <= k < |s| :: s[k] <= s[i]
  {
    if |s| == 1 { return 0; }
    var front := s[..|s| - 1];
    i := Largest(front);
    assert forall k | 0 <= k < |front| :: front[k] == s[k];
    if s[|s| - 1] > s[i] { i := |s| - 1; }
  }

  /** Cross-talk is when the two most active of at least two people both reach the floor and
      are close, unless the frame has been judged already. */
  lemma CrossTalkSampleIff(sample: Sample)
    ensures CrossTalkSample(sample) <==>
      && !sample.aiCovered
      && exists i: nat, j: nat :: TopTwo(Activities(sample.boxes), i, j) &&
           sample.boxes[j].activity >= 0.45 && sample.boxes[i].activity - sample.boxes[j].activity <= 0.2
  {
    var activities := Activities(sample.boxes);
    var top := StableSort(Higher, activities);
    SortPermutes(Higher, activities);
    SortSorts(Higher, activities);
    if |activities| >= 2 {
      var i, j := SomeTopTwo(activities);
      TopTwoAre(activities, top, i, j);
      forall a: nat, b: nat | TopTwo(activities, a, b) ensures activities[a] == top[0] && activities[b] == top[1] {
        TopTwoAre(activities, top, a, b);
      }
    }
  }

  function TalkFlags(samples: seq<Sample>): (r: seq<bool>)
    ensures |r| == |samples| && forall i | 0 <= i < |r| :: r[i] == CrossTalkSample(samples[i])
  {
    seq(|samples|, i requires 0 <= i < |samples| => CrossTalkSample(samples[i]))
  }

  function Talking(sample: Sample): Sample {
    sample.(layout := Split, crossTalk := true)
  }

  ghost predicate RunTalks(samples: seq<Sample>, flags: seq<bool>, values: seq<Sample>, a: nat, b: nat)
    requires |samples| == |flags| == |values| && a < b <= |samples|
  {
    var sustained := flags[a] && samples[b - 1].time - samples[a].time + TOLERANCE >= SUSTAIN_SECONDS;
    forall i | a <= i < b :: values[i] == if sustained then Talking(samples[i]) else samples[i]
  }

  ghost predicate CrossTalkMarked(samples: seq<Sample>, flags: seq<bool>, values: seq<Sample>) {
    && |samples| == |flags| == |values|
    && forall a: nat, b: nat | IsRun(flags, a, b) :: RunTalks(samples, flags, values, a, b)
  }

  method DetectCrossTalk(samples: seq<Sample>) returns (values: seq<Sample>)
    ensures CrossTalkMarked(samples, TalkFlags(samples), values)
  {
    values := samples;
    var flags := TalkFlags(samples);
    var index := 0;
    while index < |values|
      invariant 0 <= index <= |values| == |samples|
      invariant index == 0 || index == |samples| || flags[index] != flags[index - 1]
      invariant forall i | index <= i < |values| :: values[i] == samples[i]
      invariant forall a: nat, b: nat | IsRun(flags, a, b) && b <= index :: RunTalks(samples, flags, values, a, b)
    {
      var end := index + 1;
      while end < |values| && flags[end] == flags[index]
        invariant index < end <= |values|
        invariant forall k | index <= k < end :: flags[k] == flags[index]
      {
        end := end + 1;
      }
      ghost var before := values;
      if flags[index] {
        var duration := values[end - 1].time - values[index].time;
        if duration + TOLERANCE >= SUSTAIN_SECONDS {
          values := MarkTalking(values, index, end);
        }
      }
      OneMoreTalkRun(samples, flags, before, values, index, end);
      index := end;
    }
  }

  method MarkTalking(samples: seq<Sample>, from: nat, to: nat) returns (values: seq<Sample>)
    requires from <= to <= |samples|
    ensures |values| == |samples|
    ensures forall i | 0 <= i < |samples| :: values[i] == if from <= i < to then Talking(samples[i]) else samples[i]
  {
    values := samples;
    var item := from;
    while item < to
      invariant from <= item <= to && |values| == |samples|
      invariant forall i | 0 <= i < |samples| :: values[i] == if from <= i < item then Talking(samples[i]) else samples[i]
    {
      values := values[item := values[item].(layout := Split)];
      values := values[item := values[item].(crossTalk := true)];
      item := item + 1;
    }
  }

  lemma OneMoreTalkRun(samples: seq<Sample>, flags: seq<bool>, before: seq<Sample>, after: seq<Sample>, index: nat,
      end: nat)
    requires |samples| == |flags| == |before| == |after| && IsRun(flags, index, end)
    requires forall i | 0 <= i < index || end <= i < |after| :: after[i] == before[i]
    requires RunTalks(samples, flags, after, index, end)
    requires forall a: nat, b: nat | IsRun(flags, a, b) && b <= index :: RunTalks(samples, flags, before, a, b)
    ensures forall a: nat, b: nat | IsRun(flags, a, b) && b <= end :: RunTalks(samples, flags, after, a, b)
  {
    forall a: nat, b: nat | IsRun(flags, a, b) && b <= end ensures RunTalks(samples, flags, after, a, b) {
      if b > index {
        SameRun(flags, a, b, index, end, if a < index then index else a);
      } else {
        assert RunTalks(samples, flags, before, a, b);
      }
    }
  }

  /** An unbroken stretch of cross-talk through sample i that lasts long enough. */
  ghost predicate SustainedThrough(samples: seq<Sample>, flags: seq<bool>, i: nat, c: nat, d: nat)
    requires |samples| == |flags|
  {
    && c <= i <= d < |samples|
    && (forall k | c <= k <= d :: flags[k])
    && samples[d].time - samples[c].time + 0.000001 >= 0.5
  }

  /** A sample is forced to split exactly when it lies in such a stretch. */
  lemma CrossTalkIff(samples: seq<Sample>, flags: seq<bool>, values: seq<Sample>, i: nat)
    requires CrossTalkMarked(samples, flags, values) && Nondecreasing(Times(samples)) && i < |samples|
    ensures (exists c: nat, d: nat :: SustainedThrough(samples, flags, i, c, d)) ==> values[i] == samples[i].(layout := Split, crossTalk := true)
    ensures !(exists c: nat, d: nat :: SustainedThrough(samples, flags, i, c, d)) ==> values[i] == samples[i]
  {
    var a, b := RunStart(flags, i), RunEnd(flags, i);
    RunAround(flags, i);
    assert RunTalks(samples, flags, values, a, b);
    var times := Times(samples);
    if c: nat, d: nat :| SustainedThrough(samples, flags, i, c, d) {
      assert flags[c] && flags[d] && flags[i];
      assert a <= c && d < b;
      assert times[a] <= times[c] && times[d] <= times[b - 1];
    } else if flags[a] {
      assert !SustainedThrough(samples, flags, i, a, b - 1);
    }
  }

  // ----- bridge_safe_fill_gaps

  predicate Gap(sample: Sample) {
    sample.boxes == [] && sample.layout != Fill
  }

  function GapFlags(samples: seq<Sample>): (r: seq<bool>)
    ensures |r| == |samples| && forall i | 0 <= i < |r| :: r[i] == Gap(samples[i])
  {
    seq(|samples|, i requires 0 <= i < |samples| => Gap(samples[i]))
  }

  /** The same person, safely framed, on both sides of a short gap. */
  predicate Continuous(samples: seq<Sample>, maximum: real, a: nat, b: nat)
    requires a < b <= |samples|
  {
    && 0 < a && b < |samples|
    && var previous, following := samples[a - 1], samples[b];
    && previous.activeTrackId.Some? && previous.activeTrackId == following.activeTrackId
    && previous.layout == Fill && following.layout == Fill
    && previous.fillSafe && following.fillSafe
    && following.time - previous.time <= maximum + TOLERANCE
  }

  function Progress(previous: Sample, following: Sample, sample: Sample): real {
    (sample.time - previous.time) / Max(0.001, following.time - previous.time)
  }

  function Held(previous: Sample, following: Sample, sample: Sample): Sample {
    var progress := Progress(previous, following, sample);
    sample.(layout := Fill, fillSafe := true, framingSafe := true, framingFallback := false,
            trackingHeld := true, activeTrackId := previous.activeTrackId,
            focusX := previous.focusX + (following.focusX - previous.focusX) * progress,
            focusY := previous.focusY + (following.focusY - previous.focusY) * progress,
            confidence := Min(previous.confidence, following.confidence))
  }

  /** A bridged sample is shown filling, safely, as the person before the gap, no surer than either
      neighbour, and keeps its time and its empty boxes. */
  lemma HeldShows(previous: Sample, following: Sample, sample: Sample)
    ensures var held := Held(previous, following, sample);
      && held.layout == Fill && held.fillSafe && held.framingSafe && !held.framingFallback && held.trackingHeld
      && held.activeTrackId == previous.activeTrackId && held.time == sample.time && held.boxes == sample.boxes
      && held.confidence <= previous.confidence && held.confidence <= following.confidence
      && (held.confidence == previous.confidence || held.confidence == following.confidence)
  {
  }

  /** A gap is bridged exactly when it lies between two samples that fill the screen safely with
      one known track and are close enough in time. */
  lemma BridgedIff(samples: seq<Sample>, maximum: real, values: seq<Sample>, a: nat, b: nat, i: nat)
    requires Bridged(samples, GapFlags(samples), maximum, values) && IsRun(GapFlags(samples), a, b) && a <= i < b
    requires samples[a].boxes == [] && samples[a].layout != Fill
    ensures values[i].trackingHeld && !samples[i].trackingHeld ==>
      0 < a && b < |samples| && values[i] == Held(samples[a - 1], samples[b], samples[i])
    ensures values[i] != samples[i] ==> values[i].trackingHeld
    ensures values[i] == (if
      && 0 < a && b < |samples|
      && samples[a - 1].activeTrackId.Some? && samples[b].activeTrackId == samples[a - 1].activeTrackId
      && samples[a - 1].layout == Fill && samples[b].layout == Fill && samples[a - 1].fillSafe && samples[b].fillSafe
      && samples[b].time - samples[a - 1].time <= maximum + 0.000001
      then Held(samples[a - 1], samples[b], samples[i]) else samples[i])
  {
    assert RunBridged(samples, GapFlags(samples), maximum, values, a, b);
  }

  ghost predicate RunBridged(samples: seq<Sample>, flags: seq<bool>, maximum: real, values: seq<Sample>, a: nat, b: nat)
    requires |samples| == |flags| == |values| && a < b <= |samples|
  {
    if flags[a] && Continuous(samples, maximum, a, b)
    then forall i | a <= i < b :: values[i] == Held(samples[a - 1], samples[b], samples[i])
    else forall i | a <= i < b :: values[i] == samples[i]
  }

  ghost predicate Bridged(samples: seq<Sample>, flags: seq<bool>, maximum: real, values: seq<Sample>) {
    && |samples| == |flags| == |values|
    && forall a: nat, b: nat | IsRun(flags, a, b) :: RunBridged(samples, flags, maximum, values, a, b)
  }

  method BridgeSafeFillGaps(samples: seq<Sample>, maximum: real) returns (values: seq<Sample>)
    ensures Bridged(samples, GapFlags(samples), maximum, values)
  {
    values := samples;
    ghost var flags := GapFlags(samples);
    ghost var from := 0;   // start of the stretch without gaps that index is in
    var index := 0;
    while index < |values|
      invariant 0 <= from <= index <= |values| == |samples|
      invariant from == 0 || from == |samples| || flags[from] != flags[from - 1]
      invariant forall k | from <= k < index :: !flags[k]
      invariant from < index ==> index < |samples| && !flags[index]
      invariant forall i | from <= i < |values| :: values[i] == samples[i]
      invariant forall a: nat, b: nat | IsRun(flags, a, b) && b <= from :: RunBridged(samples, flags, maximum, values, a, b)
    {
      if values[index].boxes != [] || values[index].layout == Fill {
        index := index + 1;
        if index == |values| || flags[index] {
          OneMoreBridge(samples, flags, maximum, values, values, from, index);
          from := index;
        }
        continue;
      }
      assert from == index;
      var end := index + 1;
      while end < |values| && values[end].boxes == [] && values[end].layout != Fill
        invariant index < end <= |values|
        invariant forall k | index <= k < end :: flags[k]
      {
        end := end + 1;
      }
      ghost var before := values;
      if index > 0 && end < |values| {
        assert flags[index - 1] != flags[index];
        BridgeNeighbour(samples, flags, maximum, values, index);
        var previous, following := values[index - 1], values[end];
        var sameTrack := previous.activeTrackId.Some? && previous.activeTrackId == following.activeTrackId;
        var continuous := sameTrack && previous.layout == Fill && following.layout == Fill
          && previous.fillSafe && following.fillSafe && following.time - previous.time <= maximum + TOLERANCE;
        if continuous {
          values := Hold(values, index, end, previous, following);
        }
      }
      OneMoreBridge(samples, flags, maximum, before, values, index, end);
      index := end;
      from := end;
    }
  }

  /** The sample before a gap has not been touched. */
  lemma BridgeNeighbour(samples: seq<Sample>, flags: seq<bool>, maximum: real, values: seq<Sample>, index: nat)
    requires |samples| == |flags| == |values| && 0 < index < |samples| && flags[index] && !flags[index - 1]
    requires forall a: nat, b: nat | IsRun(flags, a, b) && b <= index :: RunBridged(samples, flags, maximum, values, a, b)
    ensures values[index - 1] == samples[index - 1]
  {
    var a, b := RunStart(flags, index - 1), RunEnd(flags, index - 1);
    RunAround(flags, index - 1);
    assert b == index;
    assert RunBridged(samples, flags, maximum, values, a, b);
  }

  method Hold(samples: seq<Sample>, from: nat, to: nat, previous: Sample, following: Sample)
    returns (values: seq<Sample>)
    requires from <= to <= |samples|
    ensures |values| == |samples|
    ensures forall i | 0 <= i < |samples| ::
      values[i] == if from <= i < to then Held(previous, following, samples[i]) else samples[i]
  {
    values := samples;
    var startTime := previous.time;
    var duration := Max(0.001, following.time - startTime);
    var item := from;
    while item < to
      invariant from <= item <= to && |values| == |samples|
      invariant forall i | 0 <= i < |samples| ::
        values[i] == if from <= i < item then Held(previous, following, samples[i]) else samples[i]
    {
      var progress := (values[item].time - startTime) / duration;
      assert values[item] == samples[item] && progress == Progress(previous, following, samples[item]);
      values := values[item := values[item].(
        layout := Fill, fillSafe := true, framingSafe := true, framingFallback := false, trackingHeld := true,
        activeTrackId := previous.activeTrackId,
        focusX := previous.focusX + (following.focusX - previous.focusX) * progress,
        focusY := previous.focusY + (following.focusY - previous.focusY) * progress,
        confidence := Min(previous.confidence, following.confidence))];
      item := item + 1;
    }
  }

  lemma OneMoreBridge(samples: seq<Sample>, flags: seq<bool>, maximum: real, before: seq<Sample>,
      after: seq<Sample>, index: nat, end: nat)
    requires |samples| == |flags| == |before| == |after| && IsRun(flags, index, end)
    requires forall i | 0 <= i < index || end <= i < |after| :: after[i] == before[i]
    requires RunBridged(samples, flags, maximum, after, index, end)
    requires forall a: nat, b: nat | IsRun(flags, a, b) && b <= index :: RunBridged(samples, flags, maximum, before, a, b)
    ensures forall a: nat, b: nat | IsRun(flags, a, b) && b <= end :: RunBridged(samples, flags, maximum, after, a, b)
  {
    forall a: nat, b: nat | IsRun(flags, a, b) && b <= end ensures RunBridged(samples, flags, maximum, after, a, b) {
      if b > index {
        SameRun(flags, a, b, index, end, if a < index then index else a);
      } else {
        assert RunBridged(samples, flags, maximum, before, a, b);
      }
    }
  }

  lemma Fraction(d: real, t: real)
    requires 0.0 <= d && 0.0 <= t <= 1.0
    ensures 0.0 <= d * t <= d
  {
    assert d * 1.0 - d * t == d * (1.0 - t);
    NotNegative(d, t);
    NotNegative(d, 1.0 - t);
  }

  lemma NotNegative(x: real, y: real)
    requires 0.0 <= x && 0.0 <= y
    ensures 0.0 <= x * y
  {
  }

  lemma Interpolates(p: real, q: real, t: real)
    requires 0.0 <= t <= 1.0
    ensures Between(p + (q - p) * t, p, q)
  {
    var d := q - p;
    if d >= 0.0 {
      Fraction(d, t);
    } else {
      Fraction(-d, t);
      Opposite(d, t);
    }
  }

  lemma Opposite(d: real, t: real)
    ensures (-d) * t == -(d * t)
  {
  }

  /** A bridged sample looks at a point between the two it bridges. */
  lemma HeldBetween(previous: Sample, following: Sample, sample: Sample)
    requires previous.time <= sample.time <= following.time
    ensures var held := Held(previous, following, sample);
      Between(held.focusX, previous.focusX, following.focusX) && Between(held.focusY, previous.focusY, following.focusY)
  {
    var duration := Max(0.001, following.time - previous.time);
    var t := Progress(previous, following, sample);
    assert t * duration == sample.time - previous.time;
    assert 0.0 <= t <= 1.0;
    Interpolates(previous.focusX, following.focusX, t);
    Interpolates(previous.focusY, following.focusY, t);
  }

  /** The focus moves at one pace: it has gone the share of the way that has passed of the time,
      gaps of less than a millisecond taken for a millisecond. */
  lemma HeldAtOnePace(previous: Sample, following: Sample, sample: Sample)
    ensures var held, duration := Held(previous, following, sample), Max(0.001, following.time - previous.time);
      && (held.focusX - previous.focusX) * duration == (following.focusX - previous.focusX) * (sample.time - previous.time)
      && (held.focusY - previous.focusY) * duration == (following.focusY - previous.focusY) * (sample.time - previous.time)
  {
    var duration := Max(0.001, following.time - previous.time);
    var t := Progress(previous, following, sample);
    assert t * duration == sample.time - previous.time;
    Regroup(following.focusX - previous.focusX, t, duration);
    Regroup(following.focusY - previous.focusY, t, duration);
  }

  lemma Regroup(d: real, t: real, duration: real)
    ensures (d * t) * duration == d * (t * duration)
  {
  }

  /** So it starts at the previous person, arrives at the following one, and never turns back. */
  lemma HeldGoesForward(previous: Sample, following: Sample, first: Sample, second: Sample)
    requires previous.time <= first.time <= second.time <= following.time
    ensures var a, b := Held(previous, following, first), Held(previous, following, second);
      && Forward(previous, following, first, second, previous.focusX, following.focusX, a.focusX, b.focusX)
      && Forward(previous, following, first, second, previous.focusY, following.focusY, a.focusY, b.focusY)
  {
    var a, b := Held(previous, following, first), Held(previous, following, second);
    ForwardAxis(previous, following, first, second, previous.focusX, following.focusX, a.focusX, b.focusX);
    ForwardAxis(previous, following, first, second, previous.focusY, following.focusY, a.focusY, b.focusY);
  }

  /** On one axis from p to q: a is on the way to b, at p when it is time, and b at q. */
  predicate Forward(previous: Sample, following: Sample, first: Sample, second: Sample, p: real, q: real, a: real, b: real) {
    && Between(a, p, b)
    && (first.time == previous.time ==> a == p)
    && (second.time == following.time && following.time - previous.time >= 0.001 ==> b == q)
  }

  lemma ForwardAxis(previous: Sample, following: Sample, first: Sample, second: Sample, p: real, q: real, a: real, b: real)
    requires previous.time <= first.time <= second.time <= following.time
    requires a == p + (q - p) * Progress(previous, following, first)
    requires b == p + (q - p) * Progress(previous, following, second)
    ensures Forward(previous, following, first, second, p, q, a, b)
  {
    GoesForward(p, q, first.time - previous.time, second.time - previous.time, Max(0.001, following.time - previous.time),
                Progress(previous, following, first), Progress(previous, following, second), a, b);
  }

  lemma GoesForward(p: real, q: real, x: real, y: real, d: real, s: real, t: real, a: real, b: real)
    requires 0.0 <= x <= y && d > 0.0 && s == x / d && t == y / d
    requires a == p + (q - p) * s && b == p + (q - p) * t
    ensures Between(a, p, b) && (x == 0.0 ==> a == p) && (y == d ==> b == q)
  {
    assert s * d == x && t * d == y;
    Shares(x, y, d, s, t);
    Farther(p, q, s, t);
  }

  lemma Shares(x: real, y: real, d: real, s: real, t: real)
    requires 0.0 <= x <= y && d > 0.0 && s * d == x && t * d == y
    ensures 0.0 <= s <= t && (x == 0.0 ==> s == 0.0) && (y == d ==> t == 1.0)
  {
    Ordered(s, t, d);
    Ordered(0.0, s, d);
    if x == 0.0 { Ordered(s, 0.0, d); }
    if y == d { Ordered(1.0, t, d); Ordered(t, 1.0, d); }
  }

  lemma Ordered(s: real, t: real, d: real)
    requires d > 0.0 && s * d <= t * d
    ensures s <= t
  {
    assert (s - t) * d == s * d - t * d;
    if s > t { Positive(s - t, d); }
  }

  lemma Positive(x: real, y: real)
    requires 0.0 < x && 0.0 < y
    ensures 0.0 < x * y
  {
  }

  lemma Farther(p: real, q: real, s: real, t: real)
    requires 0.0 <= s <= t
    ensures Between(p + (q - p) * s, p, p + (q - p) * t)
  {
    var d := q - p;
    assert d * t - d * s == d * (t - s);
    if d >= 0.0 {
      NotNegative(d, s);
      NotNegative(d, t - s);
    } else {
      NotNegative(-d, s);
      NotNegative(-d, t - s);
      assert (-d) * s == -(d * s) && (-d) * (t - s) == -(d * (t - s));
    }
  }
}
