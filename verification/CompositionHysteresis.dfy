/** The pass that holds on to one track until another has been proposed for long enough. */
module CompositionHysteresis {
  import opened Common
  import opened CompositionSamples

  function SubjectFocus(box: Box): (real, real) {
    (box.x + box.width / 2.0, if box.person then box.y + box.height * 0.2 else box.y + box.height * 0.45)
  }

  /** The track held, the one that may replace it, and when that one was first proposed. */
  datatype Hold = Hold(current: Option<int>, candidate: Option<int>, since: real)

  /** Since when the proposed track has been the candidate, this sample included. */
  function Since(hold: Hold, sample: Sample): real {
    if sample.activeTrackId != hold.candidate then sample.time else hold.since
  }

  /** Another track than the held one is proposed, and not yet for long enough. */
  predicate Resisted(hold: Hold, sample: Sample, delay: real) {
    && hold.current.Some? && sample.activeTrackId.Some? && sample.activeTrackId != hold.current
    && sample.time - Since(hold, sample) + TOLERANCE < delay
  }

  function Advance(hold: Hold, sample: Sample, delay: real): Hold {
    var proposed := sample.activeTrackId;
    if hold.current.None? && proposed.Some? then Hold(proposed, None, hold.since)
    else if proposed.None? || proposed == hold.current then hold.(candidate := None)
    else if Resisted(hold, sample, delay) then Hold(hold.current, proposed, Since(hold, sample))
    else Hold(proposed, None, Since(hold, sample))
  }

  /** The state before sample i. */
  function HoldAt(samples: seq<Sample>, delay: real, i: nat): Hold
    requires i <= |samples| && samples != []
  {
    if i == 0 then Hold(samples[0].activeTrackId, None, 0.0)
    else Advance(HoldAt(samples, delay, i - 1), samples[i - 1], delay)
  }

  function FindBox(boxes: seq<Box>, trackId: Option<int>): (r: Option<Box>)
    ensures r.Some? ==> r.value in boxes && r.value.trackId == trackId
    ensures r.None? ==> forall box | box in boxes :: box.trackId != trackId
  {
    if boxes == [] then None
    else if boxes[0].trackId == trackId then Some(boxes[0])
    else FindBox(boxes[1..], trackId)
  }

  /** The sample goes on looking at the held person, when they are visible. */
  function Kept(current: Option<int>, sample: Sample): Sample {
    var box := FindBox(sample.boxes, current);
    var kept := if box.None? then sample else
      sample.(activeTrackId := current, focusX := SubjectFocus(box.value).0, focusY := SubjectFocus(box.value).1);
    if |sample.boxes| >= 2 then kept.(layout := Split) else kept
  }

  /** A person is looked at in the middle of the upper fifth, anything else a little above the middle. */
  lemma SubjectFocusAt(box: Box)
    ensures var focus := SubjectFocus(box);
      && focus.0 - box.x == box.x + box.width - focus.0
      && focus.1 - box.y == box.height * if box.person then 0.2 else 0.45
  {
  }

  /** The held person is looked at when visible; otherwise the sample keeps its own. */
  lemma KeptLooksAt(current: Option<int>, sample: Sample)
    ensures var value := Kept(current, sample);
      if exists box :: box in sample.boxes && box.trackId == current
      then value.activeTrackId == current && LooksAtOne(sample.boxes, current, value)
      else value.activeTrackId == sample.activeTrackId && value.focusX == sample.focusX && value.focusY == sample.focusY
  {
    var found := FindBox(sample.boxes, current);
    if found.Some? {
      assert found.value in sample.boxes && found.value.trackId == current;
    }
  }

  ghost predicate LooksAtOne(boxes: seq<Box>, trackId: Option<int>, value: Sample) {
    exists box :: box in boxes && box.trackId == trackId && (value.focusX, value.focusY) == SubjectFocus(box)
  }

  function Tracked(hold: Hold, sample: Sample, delay: real): Sample {
    if Resisted(hold, sample, delay) then Kept(hold.current, sample) else sample
  }

  ghost predicate TrackedUpTo(samples: seq<Sample>, delay: real, values: seq<Sample>, n: nat) {
    && n <= |samples| == |values|
    && forall i | 0 <= i < n :: values[i] == Tracked(HoldAt(samples, delay, i), samples[i], delay)
  }

  /** The whole pass; without a delay, or for a single sample, it does nothing. */
  ghost predicate TracksKept(samples: seq<Sample>, delay: real, values: seq<Sample>) {
    if |samples| < 2 || delay <= 0.0 then values == samples else TrackedUpTo(samples, delay, values, |samples|)
  }

  /** The pass shows sample k split, whatever its layout was: a change of track is resisted there
      and two people are seen. */
  predicate Forced(samples: seq<Sample>, delay: real, k: nat)
    requires k < |samples|
  {
    && |samples| >= 2 && delay > 0.0
    && Resisted(HoldAt(samples, delay, k), samples[k], delay) && |samples[k].boxes| >= 2
  }

  method StabilizeActiveTracks(samples: seq<Sample>, delay: real) returns (values: seq<Sample>)
    ensures TracksKept(samples, delay, values)
  {
    values := samples;
    if |values| < 2 || delay <= 0.0 {
      return;
    }
    var current, candidate, candidateSince := values[0].activeTrackId, None, 0.0;
    var i := 0;
    while i < |values|
      invariant 0 <= i <= |values| == |samples|
      invariant Hold(current, candidate, candidateSince) == HoldAt(samples, delay, i)
      invariant TrackedUpTo(samples, delay, values, i)
      invariant values[i..] == samples[i..]
    {
      assert values[i] == values[i..][0] == samples[i];
      ghost var before := values;
      var sample;
      current, candidate, candidateSince, sample := Observe(current, candidate, candidateSince, values[i], delay);
      values := values[i := sample];
      OneMoreTracked(samples, delay, before, values, i);
      i := i + 1;
    }
  }

  lemma OneMoreTracked(samples: seq<Sample>, delay: real, before: seq<Sample>, after: seq<Sample>, i: nat)
    requires i < |samples| && TrackedUpTo(samples, delay, before, i) && before[i..] == samples[i..]
    requires after == before[i := Tracked(HoldAt(samples, delay, i), samples[i], delay)]
    ensures TrackedUpTo(samples, delay, after, i + 1)
    ensures after[i + 1..] == samples[i + 1..]
  {
    assert after[i + 1..] == before[i..][1..] == samples[i..][1..];
  }

  /** The body of the loop; an early return stands for `continue`. */
  method Observe(current0: Option<int>, candidate0: Option<int>, since0: real, sample: Sample, delay: real)
    returns (current: Option<int>, candidate: Option<int>, candidateSince: real, value: Sample)
    ensures Hold(current, candidate, candidateSince) == Advance(Hold(current0, candidate0, since0), sample, delay)
    ensures value == Tracked(Hold(current0, candidate0, since0), sample, delay)
  {
    current, candidate, candidateSince, value := current0, candidate0, since0, sample;
    var proposed, now := sample.activeTrackId, sample.time;
    if current.None? && proposed.Some? {
      current, candidate := proposed, None;
      return;
    }
    if proposed.None? || proposed == current {
      candidate := None;
      return;
    }
    if proposed != candidate {
      candidate, candidateSince := proposed, now;
    }
    if now - candidateSince + TOLERANCE >= delay {
      current, candidate := proposed, None;
      return;
    }
    value := KeepTrack(current, sample);
  }

  method KeepTrack(current: Option<int>, sample: Sample) returns (value: Sample)
    ensures value == Kept(current, sample)
  {
    value := sample;
    var currentBox := FindBox(sample.boxes, current);
    if currentBox.Some? {
      var focus := SubjectFocus(currentBox.value);
      value := value.(activeTrackId := current, focusX := focus.0, focusY := focus.1);
    }
    if |value.boxes| >= 2 {
      value := value.(layout := Split);
    }
  }

  // ----- when the held track changes

  function Proposals(samples: seq<Sample>): (r: seq<Option<int>>)
    ensures |r| == |samples| && forall i | 0 <= i < |r| :: r[i] == samples[i].activeTrackId
  {
    seq(|samples|, i requires 0 <= i < |samples| => samples[i].activeTrackId)
  }

  /** What the candidate stands for: the unbroken run of proposals up to here. */
  ghost predicate CandidateMeans(samples: seq<Sample>, hold: Hold, i: nat)
    requires 0 < i <= |samples|
  {
    var proposals := Proposals(samples);
    && (hold.candidate.Some? ==>
          && hold.current.Some? && hold.candidate != hold.current && proposals[i - 1] == hold.candidate
          && hold.since == samples[RunStart(proposals, i - 1)].time)
    && (hold.current.Some? && proposals[i - 1].Some? && proposals[i - 1] != hold.current ==> hold.candidate == proposals[i - 1])
  }

  lemma {:induction false} CandidateAt(samples: seq<Sample>, delay: real, i: nat)
    requires 0 < i <= |samples|
    ensures CandidateMeans(samples, HoldAt(samples, delay, i), i)
  {
    var proposals := Proposals(samples);
    var before := HoldAt(samples, delay, i - 1);
    if i > 1 {
      CandidateAt(samples, delay, i - 1);
      if before.candidate.Some? && proposals[i - 1] == before.candidate {
        assert RunStart(proposals, i - 1) == RunStart(proposals, i - 2);
      }
    }
    CandidateStep(samples, before, delay, i);
  }

  lemma CandidateStep(samples: seq<Sample>, before: Hold, delay: real, i: nat)
    requires 0 < i <= |samples|
    requires i == 1 ==> before == Hold(samples[0].activeTrackId, None, 0.0)
    requires i > 1 ==> CandidateMeans(samples, before, i - 1)
    requires i > 1 && before.candidate.Some? && Proposals(samples)[i - 1] == before.candidate ==>
      RunStart(Proposals(samples), i - 1) == RunStart(Proposals(samples), i - 2)
    ensures CandidateMeans(samples, Advance(before, samples[i - 1], delay), i)
  {
    var after := Advance(before, samples[i - 1], delay);
    if after.candidate.Some? && after.candidate != before.candidate {
      assert RunStart(Proposals(samples), i - 1) == i - 1;
    }
  }

  /** The held track is given up exactly when the new one has been proposed by every sample of
      a run that spans the delay. */
  lemma SwitchIff(samples: seq<Sample>, delay: real, i: nat, x: int, y: int)
    requires i < |samples| && x != y
    requires HoldAt(samples, delay, i).current == Some(x) && samples[i].activeTrackId == Some(y)
    ensures HoldAt(samples, delay, i + 1).current == Some(y) <==>
      samples[i].time - samples[RunStart(Proposals(samples), i)].time + 0.000001 >= delay
    ensures HoldAt(samples, delay, i + 1).current in {Some(x), Some(y)}
  {
    SinceRunStart(samples, delay, i, x, y);
  }

  /** The clock of a candidate runs from the first sample of its unbroken run. */
  lemma SinceRunStart(samples: seq<Sample>, delay: real, i: nat, x: int, y: int)
    requires i < |samples| && x != y
    requires HoldAt(samples, delay, i).current == Some(x) && samples[i].activeTrackId == Some(y)
    ensures Since(HoldAt(samples, delay, i), samples[i]) == samples[RunStart(Proposals(samples), i)].time
  {
    var before := HoldAt(samples, delay, i);
    if i > 0 {
      CandidateAt(samples, delay, i);
      if before.candidate == Some(y) {
        assert RunStart(Proposals(samples), i) == RunStart(Proposals(samples), i - 1);
      } else {
        assert RunStart(Proposals(samples), i) == i;
      }
    }
  }

  /** The first track that is proposed is held at once, nothing before it, and from then on some
      track always is. */
  lemma {:induction false} HeldFromFirst(samples: seq<Sample>, delay: real, first: nat, i: nat)
    requires first < |samples| && samples[first].activeTrackId.Some? && i <= |samples|
    requires forall k | 0 <= k < first :: samples[k].activeTrackId.None?
    ensures 0 < i <= first ==> HoldAt(samples, delay, i).current.None?
    ensures i == first + 1 ==> HoldAt(samples, delay, i).current == samples[first].activeTrackId
    ensures i > first ==> HoldAt(samples, delay, i).current.Some?
  {
    if i > 0 { HeldFromFirst(samples, delay, first, i - 1); }
    if i == 1 {
      assert HoldAt(samples, delay, 0) == Hold(samples[0].activeTrackId, None, 0.0);
    }
  }

  /** Any other proposal leaves a known track in place. */
  lemma OnlyProposalsSwitch(samples: seq<Sample>, delay: real, i: nat)
    requires i < |samples| && HoldAt(samples, delay, i).current.Some?
    requires samples[i].activeTrackId.None? || samples[i].activeTrackId == HoldAt(samples, delay, i).current
    ensures HoldAt(samples, delay, i + 1).current == HoldAt(samples, delay, i).current
  {
  }

  /** A change of track, seen over the whole run: all its samples propose the new track while
      the old one is still held. */
  lemma {:induction false} SwitchNeedsUnbrokenRun(samples: seq<Sample>, delay: real, i: nat, x: int, y: int, k: nat)
    requires i < |samples| && x != y && k <= i
    requires HoldAt(samples, delay, i).current == Some(x) && HoldAt(samples, delay, i + 1).current == Some(y)
    requires RunStart(Proposals(samples), i) <= k
    ensures samples[k].activeTrackId == Some(y) && HoldAt(samples, delay, k).current == Some(x)
    ensures samples[i].time - samples[RunStart(Proposals(samples), i)].time + 0.000001 >= delay
    decreases i - k
  {
    if samples[i].activeTrackId != Some(y) {
      OnlyProposalsSwitch(samples, delay, i);
    }
    SwitchIff(samples, delay, i, x, y);
    assert Proposals(samples)[k] == Proposals(samples)[i];
    if k < i {
      SwitchNeedsUnbrokenRun(samples, delay, i, x, y, k + 1);
    }
  }

  // ----- what happens to the samples

  /** The active track is the best box's, when there are boxes. */
  predicate OwnTrack(sample: Sample) {
    sample.boxes != [] ==> sample.activeTrackId == sample.boxes[0].trackId
  }

  /** No sample becomes fill here; and one whose focus is moved away is shown as split. */
  lemma TrackedIsSafe(hold: Hold, sample: Sample, delay: real)
    ensures var value := Tracked(hold, sample, delay);
      && (value.layout == sample.layout || (value.layout == Split && |sample.boxes| >= 2))
      && value == sample.(layout := value.layout, activeTrackId := value.activeTrackId, focusX := value.focusX, focusY := value.focusY)
      && (OwnTrack(sample) && value.layout == Fill ==> value == sample)
  {
    if Resisted(hold, sample, delay) {
      KeptIsSafe(hold.current, sample);
    }
  }

  lemma KeptIsSafe(current: Option<int>, sample: Sample)
    ensures var value := Kept(current, sample);
      && (value.layout == sample.layout || (value.layout == Split && |sample.boxes| >= 2))
      && value == sample.(layout := value.layout, activeTrackId := value.activeTrackId, focusX := value.focusX, focusY := value.focusY)
      && (OwnTrack(sample) && sample.activeTrackId != current && value.layout == Fill ==> value == sample)
  {
    var box := FindBox(sample.boxes, current);
    assert box.Some? ==> box.value in sample.boxes;
  }
}
