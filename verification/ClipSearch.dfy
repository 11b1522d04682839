/** The search for clips: all windows of segments within a duration range, ranked, and chosen
    greedily as long as they do not overlap too much. */
module ClipSearch {
  import opened Common
  import opened Sorting

  datatype Segment = Segment(id: nat, start: real, end: real)

  /** The window of segments [first, last], both included. */
  datatype Candidate = Candidate(score: real, first: nat, last: nat)

  const MAXIMUM_OVERLAP := 0.55

  // ----- windows

  function Duration(segments: seq<Segment>, a: nat, b: nat): real
    requires a <= b < |segments|
  {
    segments[b].end - segments[a].start
  }

  function TotalScore(segments: seq<Segment>, scores: map<nat, real>): real {
    if segments == [] then 0.0
    else (if segments[0].id in scores then scores[segments[0].id] else 0.0) + TotalScore(segments[1..], scores)
  }

  function WindowScore(segments: seq<Segment>, scores: map<nat, real>, a: nat, b: nat): real
    requires a <= b < |segments|
  {
    var count := (b - a + 1) as real;
    var base := TotalScore(segments[a..b + 1], scores) / count;
    var durationFit := Max(0.0, 10.0 - Abs(Duration(segments, a, b) - 42.0) / 5.0);
    var cohesion := Max(0.0, 5.0 - (count - 1.0) * 0.7);
    Min(100.0, base + durationFit + cohesion)
  }

  /** Adding up is by parts, so the base of a window is the mean of its segments' scores. */
  lemma {:induction false} TotalScoreConcat(a: seq<Segment>, b: seq<Segment>, scores: map<nat, real>)
    ensures TotalScore(a + b, scores) == TotalScore(a, scores) + TotalScore(b, scores)
  {
    if a == [] {
      assert a + b == b;
    } else {
      assert (a + b)[1..] == a[1..] + b;
      TotalScoreConcat(a[1..], b, scores);
    }
  }

  lemma TotalScoreOne(segment: Segment, scores: map<nat, real>)
    ensures segment.id in scores ==> TotalScore([segment], scores) == scores[segment.id]
    ensures segment.id !in scores ==> TotalScore([segment], scores) == 0.0
  {
    assert [segment][1..] == [];
  }

  /** A window scores the mean of its segments and up to fifteen points more: all of them for one
      segment of 42 seconds, a fifth of a point less for each second off and 0.7 for each
      further segment, until ten and five of them are gone; never more than a hundred. */
  lemma WindowScoreShape(segments: seq<Segment>, scores: map<nat, real>, a: nat, b: nat)
    requires a <= b < |segments|
    ensures
      var mean := TotalScore(segments[a..b + 1], scores) / (b - a + 1) as real;
      var off, more := Abs(Duration(segments, a, b) - 42.0), (b - a) as real;
      var score := WindowScore(segments, scores, a, b);
      && (off <= 50.0 && b - a <= 7 ==> score == Min(100.0, mean + 15.0 - off / 5.0 - 0.7 * more))
      && (off > 50.0 && b - a <= 7 ==> score == Min(100.0, mean + 5.0 - 0.7 * more))
      && (off <= 50.0 && b - a > 7 ==> score == Min(100.0, mean + 10.0 - off / 5.0))
      && (off > 50.0 && b - a > 7 ==> score == Min(100.0, mean))
  {
  }

  datatype Limits = Limits(minimum: real, maximum: real)

  /** A window worth considering, by its own duration. */
  predicate Eligible(segments: seq<Segment>, limits: Limits, a: nat, b: nat)
    requires a <= b < |segments|
  {
    var duration := Duration(segments, a, b);
    duration <= limits.maximum && (duration >= limits.minimum || (a == b && |segments| == 1))
  }

  /** No shorter window from the same start is already too long. */
  predicate Reached(segments: seq<Segment>, limits: Limits, a: nat, b: nat)
    requires a <= b < |segments|
  {
    forall k | a <= k < b :: Duration(segments, a, k) <= limits.maximum
  }

  predicate IsCandidate(segments: seq<Segment>, scores: map<nat, real>, limits: Limits, c: Candidate) {
    && c.first <= c.last < |segments|
    && Eligible(segments, limits, c.first, c.last) && Reached(segments, limits, c.first, c.last)
    && c.score == WindowScore(segments, scores, c.first, c.last)
  }

  /** A candidate lasts at most the maximum, and at least the minimum unless it is all there is; it
      scores what its window scores; and from its start no shorter window is too long already. */
  lemma CandidateIff(segments: seq<Segment>, scores: map<nat, real>, limits: Limits, c: Candidate)
    requires c.first <= c.last < |segments|
    ensures
      var duration := segments[c.last].end - segments[c.first].start;
      IsCandidate(segments, scores, limits, c) <==>
        && duration <= limits.maximum && (duration >= limits.minimum || |segments| == 1)
        && c.score == WindowScore(segments, scores, c.first, c.last)
        && forall k | c.first <= k < c.last :: segments[k].end - segments[c.first].start <= limits.maximum
  {
    if IsCandidate(segments, scores, limits, c) {
      forall k | c.first <= k < c.last ensures segments[k].end - segments[c.first].start <= limits.maximum {
        assert Duration(segments, c.first, k) <= limits.maximum;
      }
    }
  }

  /** Every candidate that starts before segment a, or at a and ends before b. */
  ghost predicate HasUpTo(segments: seq<Segment>, scores: map<nat, real>, limits: Limits,
      candidates: seq<Candidate>, a: nat, b: nat) {
    forall c: Candidate | IsCandidate(segments, scores, limits, c) && (c.first < a || (c.first == a && c.last < b)) :: c in candidates
  }

  /** Exactly the eligible windows that the early exit does not cut off. */
  method Windows(segments: seq<Segment>, scores: map<nat, real>, limits: Limits) returns (candidates: seq<Candidate>)
    ensures forall c :: c in candidates <==> IsCandidate(segments, scores, limits, c)
  {
    candidates := [];
    var start := 0;
    while start < |segments|
      invariant 0 <= start <= |segments|
      invariant forall c | c in candidates :: IsCandidate(segments, scores, limits, c)
      invariant HasUpTo(segments, scores, limits, candidates, start, start)
    {
      var end := start;
      while end < |segments|
        invariant start <= end <= |segments|
        invariant forall c | c in candidates :: IsCandidate(segments, scores, limits, c)
        invariant forall k | start <= k < end :: Duration(segments, start, k) <= limits.maximum
        invariant HasUpTo(segments, scores, limits, candidates, start, end)
      {
        var duration := Duration(segments, start, end);
        if duration > limits.maximum {
          CutOff(segments, scores, limits, candidates, start, end);
          break;
        }
        if duration >= limits.minimum || (start == end && |segments| == 1) {
          candidates := candidates + [Candidate(WindowScore(segments, scores, start, end), start, end)];
        }
        end := end + 1;
      }
      start := start + 1;
    }
  }

  /** The windows that the early exit skips are no candidates. */
  lemma CutOff(segments: seq<Segment>, scores: map<nat, real>, limits: Limits, candidates: seq<Candidate>, a: nat,
      b: nat)
    requires a <= b < |segments| && Duration(segments, a, b) > limits.maximum
    requires HasUpTo(segments, scores, limits, candidates, a, b)
    ensures HasUpTo(segments, scores, limits, candidates, a + 1, a + 1)
    ensures HasUpTo(segments, scores, limits, candidates, a, |segments|)
  {
    forall c: Candidate | IsCandidate(segments, scores, limits, c) && c.first == a ensures c.last < b {
      assert Duration(segments, a, b) > limits.maximum;
    }
  }

  /** Every eligible window is a candidate if and only if none has a segment before its last one
      that ends too late for its start. */
  lemma NothingLostIff(segments: seq<Segment>, scores: map<nat, real>, limits: Limits, candidates: seq<Candidate>)
    requires forall c :: c in candidates <==> IsCandidate(segments, scores, limits, c)
    ensures (forall a: nat, b: nat | a <= b < |segments| && Eligible(segments, limits, a, b) ::
              Candidate(WindowScore(segments, scores, a, b), a, b) in candidates)
      <==> (forall a: nat, c: nat, b: nat | a <= c < b < |segments| && Eligible(segments, limits, a, b) ::
              segments[c].end - segments[a].start <= limits.maximum)
  {
    forall a: nat, b: nat | a <= b < |segments| && Eligible(segments, limits, a, b)
      ensures Candidate(WindowScore(segments, scores, a, b), a, b) in candidates <==> NoneTooLate(segments, limits, a, b)
    {
      assert Candidate(WindowScore(segments, scores, a, b), a, b) in candidates <==> Reached(segments, limits, a, b);
      if Reached(segments, limits, a, b) {
        forall c | a <= c < b ensures segments[c].end - segments[a].start <= limits.maximum {
          assert Duration(segments, a, c) <= limits.maximum;
        }
      }
    }
    assert (forall a: nat, b: nat | a <= b < |segments| && Eligible(segments, limits, a, b) :: NoneTooLate(segments, limits, a, b))
      <==> (forall a: nat, c: nat, b: nat | a <= c < b < |segments| && Eligible(segments, limits, a, b) ::
              segments[c].end - segments[a].start <= limits.maximum);
  }

  predicate NoneTooLate(segments: seq<Segment>, limits: Limits, a: nat, b: nat)
    requires a <= b < |segments|
  {
    forall c | a <= c < b :: segments[c].end - segments[a].start <= limits.maximum
  }

  /** When segments end in order, the early exit loses nothing. */
  lemma NothingLost(segments: seq<Segment>, limits: Limits, a: nat, b: nat)
    requires forall i, j | 0 <= i <= j < |segments| :: segments[i].end <= segments[j].end
    requires a <= b < |segments| && Eligible(segments, limits, a, b)
    ensures Reached(segments, limits, a, b)
  {
  }

  /** Otherwise it can: a long segment hides a shorter window behind it. */
  lemma LateEndHidesWindow()
    ensures var segments := [Segment(0, 0.0, 10.0), Segment(1, 10.0, 100.0), Segment(2, 20.0, 40.0)];
      Eligible(segments, Limits(15.0, 90.0), 0, 2) && !Reached(segments, Limits(15.0, 90.0), 0, 2)
  {
    var segments := [Segment(0, 0.0, 10.0), Segment(1, 10.0, 100.0), Segment(2, 20.0, 40.0)];
    assert Duration(segments, 0, 1) == 100.0;
  }

  // ----- ranking

  /** Larger tuples first. */
  predicate NoLower(p: Candidate, q: Candidate) {
    || p.score > q.score
    || (p.score == q.score && p.first > q.first)
    || (p.score == q.score && p.first == q.first && p.last >= q.last)
  }

  method Rank(candidates: seq<Candidate>) returns (ranked: seq<Candidate>)
    ensures Sorted(NoLower, ranked)
    ensures forall i, j | 0 <= i < j < |ranked| :: ranked[i].score >= ranked[j].score
    ensures forall i, j | 0 <= i < j < |ranked| && ranked[i].score == ranked[j].score ::
      ranked[i].first > ranked[j].first || (ranked[i].first == ranked[j].first && ranked[i].last >= ranked[j].last)
    ensures forall c :: c in ranked <==> c in candidates
  {
    ranked := StableSort(NoLower, candidates);
    SortSorts(NoLower, candidates);
    forall c ensures c in ranked <==> c in candidates {
      SortKeepsElements(NoLower, candidates, c);
    }
    forall i, j | 0 <= i < j < |ranked| ensures ranked[i].score >= ranked[j].score {
      assert NoLower(ranked[i], ranked[j]);
    }
  }

  // ----- selection

  function OverlapRatio(startA: real, endA: real, startB: real, endB: real): real {
    var intersection := Max(0.0, Min(endA, endB) - Max(startA, startB));
    var shorter := Min(endA - startA, endB - startB);
    if shorter > 0.0 then intersection / shorter else 0.0
  }

  /** How much of the shorter of two stretches lies in the other: nothing exactly when they do
      not overlap, all of it exactly when it lies inside, and the same from both sides. */
  lemma OverlapShare(startA: real, endA: real, startB: real, endB: real)
    requires startA < endA && startB < endB
    ensures var r := OverlapRatio(startA, endA, startB, endB);
      && 0.0 <= r <= 1.0 && r == OverlapRatio(startB, endB, startA, endA)
      && (r == 0.0 <==> endA <= startB || endB <= startA)
      && (r == 1.0 <==> (startA <= startB && endB <= endA) || (startB <= startA && endA <= endB))
      && (r > 0.55 <==> Max(0.0, Min(endA, endB) - Max(startA, startB)) > 0.55 * Min(endA - startA, endB - startB))
  {
    Share(Max(0.0, Min(endA, endB) - Max(startA, startB)), Min(endA - startA, endB - startB));
  }

  lemma Share(x: real, y: real)
    requires 0.0 <= x <= y && y > 0.0
    ensures 0.0 <= x / y <= 1.0 && (x / y == 0.0 <==> x == 0.0) && (x / y == 1.0 <==> x == y) && (x / y > 0.55 <==> x > 0.55 * y)
  {
    var r := x / y;
    assert r * y == x;
    assert (r - 0.55) * y == x - 0.55 * y;
    SameSign(r - 0.55, y);
    SameSign(r, y);
    assert (r - 1.0) * y == x - y;
    SameSign(r - 1.0, y);
  }

  lemma SameSign(d: real, y: real)
    requires y > 0.0
    ensures (d > 0.0 <==> d * y > 0.0) && (d == 0.0 <==> d * y == 0.0)
  {
  }

  predicate Within(segments: seq<Segment>, c: Candidate) {
    c.first <= c.last < |segments|
  }

  predicate Overlaps(segments: seq<Segment>, c: Candidate, d: Candidate)
    requires Within(segments, c) && Within(segments, d)
  {
    OverlapRatio(segments[c.first].start, segments[c.last].end, segments[d.first].start, segments[d.last].end) > MAXIMUM_OVERLAP
  }

  /** Two windows overlap too much when they share more than 55 % of the shorter one. */
  lemma OverlapsIff(segments: seq<Segment>, c: Candidate, d: Candidate)
    requires Within(segments, c) && Within(segments, d)
    requires segments[c.first].start < segments[c.last].end && segments[d.first].start < segments[d.last].end
    ensures
      var startC, endC := segments[c.first].start, segments[c.last].end;
      var startD, endD := segments[d.first].start, segments[d.last].end;
      Overlaps(segments, c, d) <==> Min(endC, endD) - Max(startC, startD) > 0.55 * Min(endC - startC, endD - startD)
  {
    OverlapShare(segments[c.first].start, segments[c.last].end, segments[d.first].start, segments[d.last].end);
  }

  /** `any(...)` over the clips chosen so far. */
  method OverlapsAny(segments: seq<Segment>, c: Candidate, selected: seq<Candidate>) returns (found: bool)
    requires Within(segments, c) && forall d | d in selected :: Within(segments, d)
    ensures found <==> exists d :: d in selected && Overlaps(segments, c, d)
  {
    var i := 0;
    while i < |selected|
      invariant 0 <= i <= |selected|
      invariant forall k | 0 <= k < i :: !Overlaps(segments, c, selected[k])
    {
      if Overlaps(segments, c, selected[i]) {
        assert selected[i] in selected;
        return true;
      }
      i := i + 1;
    }
    return false;
  }

  /** A candidate lost its place to a chosen one that ranks no lower and overlaps it too much. */
  ghost predicate Displaced(segments: seq<Segment>, ranked: seq<Candidate>, picks: seq<nat>, i: nat)
    requires i < |ranked| && (forall c | c in ranked :: Within(segments, c)) && (forall p | p in picks :: p < |ranked|)
  {
    exists p :: p in picks && p < i && Overlaps(segments, ranked[i], ranked[p])
  }

  ghost predicate Spread(segments: seq<Segment>, ranked: seq<Candidate>, picks: seq<nat>)
    requires (forall c | c in ranked :: Within(segments, c)) && (forall p | p in picks :: p < |ranked|)
  {
    forall p, q | p in picks && q in picks && p < q :: !Overlaps(segments, ranked[q], ranked[p])
  }

  /** The chosen and their places, which are in ranking order and below n. */
  ghost predicate Chosen(ranked: seq<Candidate>, selected: seq<Candidate>, picks: seq<nat>, n: nat) {
    && |selected| == |picks| && n <= |ranked|
    && (forall k | 0 <= k < |picks| :: picks[k] < n && selected[k] == ranked[picks[k]])
    && (forall k, m | 0 <= k < m < |picks| :: picks[k] < picks[m])
    && (forall p | p in picks :: p < n)
  }

  /** The choice, with the places of the chosen in the ranking. */
  method Select(segments: seq<Segment>, ranked: seq<Candidate>, requested: nat)
    returns (selected: seq<Candidate>, ghost picks: seq<nat>)
    requires forall c | c in ranked :: Within(segments, c)
    ensures Chosen(ranked, selected, picks, |ranked|) && |selected| <= requested
    ensures ranked != [] && requested > 0 ==> picks != []
    ensures Spread(segments, ranked, picks)
    ensures |selected| < requested ==> forall i | 0 <= i < |ranked| :: i in picks || Displaced(segments, ranked, picks, i)
  {
    selected, picks := [], [];
    var index := 0;
    while index < |ranked|
      invariant 0 <= index <= |ranked| && |selected| <= requested
      invariant Chosen(ranked, selected, picks, index)
      invariant index > 0 && requested > 0 ==> picks != []
      invariant Spread(segments, ranked, picks)
      invariant forall i | 0 <= i < index :: i in picks || Displaced(segments, ranked, picks, i)
    {
      if |selected| >= requested { return; }
      var candidate := ranked[index];
      assert candidate in ranked;
      SelectedWithin(segments, ranked, selected, picks, index);
      var taken := OverlapsAny(segments, candidate, selected);
      AnyMeansPick(segments, ranked, selected, picks, index);
      if !taken {
        OneMorePick(segments, ranked, picks, index);
        OneMoreChosen(ranked, selected, picks, index);
        selected := selected + [candidate];
        picks := picks + [index];
      }
      index := index + 1;
    }
  }

  lemma OneMoreChosen(ranked: seq<Candidate>, selected: seq<Candidate>, picks: seq<nat>, index: nat)
    requires index < |ranked| && Chosen(ranked, selected, picks, index)
    ensures Chosen(ranked, selected + [ranked[index]], picks + [index], index + 1)
  {
  }

  lemma SelectedWithin(segments: seq<Segment>, ranked: seq<Candidate>, selected: seq<Candidate>, picks: seq<nat>,
      n: nat)
    requires Chosen(ranked, selected, picks, n) && forall c | c in ranked :: Within(segments, c)
    ensures forall d | d in selected :: Within(segments, d)
  {
    forall d | d in selected ensures Within(segments, d) {
      var k :| 0 <= k < |selected| && selected[k] == d;
      assert ranked[picks[k]] in ranked;
    }
  }

  lemma AnyMeansPick(segments: seq<Segment>, ranked: seq<Candidate>, selected: seq<Candidate>, picks: seq<nat>,
      index: nat)
    requires index < |ranked| && Chosen(ranked, selected, picks, index) && forall c | c in ranked :: Within(segments, c)
    requires forall d | d in selected :: Within(segments, d)
    ensures (exists d :: d in selected && Overlaps(segments, ranked[index], d)) <==> Displaced(segments, ranked, picks, index)
  {
    if d :| d in selected && Overlaps(segments, ranked[index], d) {
      var k :| 0 <= k < |selected| && selected[k] == d;
      assert picks[k] in picks;
    }
    if Displaced(segments, ranked, picks, index) {
      var p :| p in picks && p < index && Overlaps(segments, ranked[index], ranked[p]);
      var k :| 0 <= k < |picks| && picks[k] == p;
      assert selected[k] in selected;
    }
  }

  lemma OneMorePick(segments: seq<Segment>, ranked: seq<Candidate>, picks: seq<nat>, index: nat)
    requires index < |ranked| && (forall c | c in ranked :: Within(segments, c)) && (forall p | p in picks :: p < index)
    requires Spread(segments, ranked, picks) && !Displaced(segments, ranked, picks, index)
    requires forall i | 0 <= i < index :: i in picks || Displaced(segments, ranked, picks, i)
    ensures Spread(segments, ranked, picks + [index])
    ensures forall i | 0 <= i < index + 1 :: i in picks + [index] || Displaced(segments, ranked, picks + [index], i)
  {
    forall i | 0 <= i < index && i !in picks ensures Displaced(segments, ranked, picks + [index], i) {
      var p :| p in picks && p < i && Overlaps(segments, ranked[i], ranked[p]);
      assert p in picks + [index];
    }
  }

  // ----- editorial trimming

  /** What an editor suggested for a segment. */
  datatype Editorial = Editorial(suggestedStart: Option<real>, suggestedEnd: Option<real>)

  function BoundedTimestamp(value: Option<real>, fallback: real, minimum: real, maximum: real): real {
    match value
    case None => fallback
    case Some(number) => Max(minimum, Min(maximum, number))
  }

  datatype Clip = Clip(start: real, end: real, score: real, first: nat, last: nat)

  const SHORTEST := 3.0

  /** The clip of a window, its ends moved where an editor wanted them if enough is left. */
  function BuildClip(segments: seq<Segment>, editorials: map<nat, Editorial>, c: Candidate): (clip: Clip)
    requires Within(segments, c)
    ensures clip.score == c.score && clip.first == c.first && clip.last == c.last
    ensures clip.start >= segments[c.first].start
    ensures segments[c.last].start <= segments[c.last].end ==> clip.end <= segments[c.last].end
    ensures clip.end - clip.start >= 3.0 || (clip.start == segments[c.first].start && clip.end == segments[c.last].end)
    ensures segments[c.first].start <= segments[c.first].end && clip.start != segments[c.first].start ==> clip.start <= segments[c.first].end
  {
    var first, last := segments[c.first], segments[c.last];
    var start := BoundedTimestamp(if first.id in editorials then editorials[first.id].suggestedStart else None, first.start, first.start, first.end);
    var end := BoundedTimestamp(if last.id in editorials then editorials[last.id].suggestedEnd else None, last.end, last.start, last.end);
    if end - start < SHORTEST then Clip(first.start, last.end, c.score, c.first, c.last)
    else Clip(start, end, c.score, c.first, c.last)
  }

  /** An editor's ends are taken when they lie in the first and the last segment and leave three
      seconds; without them the window stays as it is. */
  lemma SuggestionsTaken(segments: seq<Segment>, editorials: map<nat, Editorial>, c: Candidate, start: real, end: real)
    requires Within(segments, c) && end - start >= 3.0
    requires var first := segments[c.first];
      && first.start <= start <= first.end
      && (if first.id in editorials && editorials[first.id].suggestedStart.Some?
          then start == editorials[first.id].suggestedStart.value else start == first.start)
    requires var last := segments[c.last];
      && last.start <= end <= last.end
      && (if last.id in editorials && editorials[last.id].suggestedEnd.Some?
          then end == editorials[last.id].suggestedEnd.value else end == last.end)
    ensures BuildClip(segments, editorials, c).start == start && BuildClip(segments, editorials, c).end == end
  {
  }

  /** One that lies outside is moved to the nearest end of the segment. */
  lemma SuggestionsBounded(value: real, fallback: real, minimum: real, maximum: real, other: real)
    requires minimum <= other <= maximum
    ensures var t := BoundedTimestamp(Some(value), fallback, minimum, maximum);
      minimum <= t <= maximum && Abs(value - t) <= Abs(value - other)
  {
  }

  function Clamp(requested: int): (r: nat)
    ensures 1 <= r <= 30 && (1 <= requested <= 30 ==> r == requested)
    ensures (requested < 1 ==> r == 1) && (requested > 30 ==> r == 30)
  {
    if requested < 1 then 1 else if requested > 30 then 30 else requested
  }

  ghost predicate AllWithin(segments: seq<Segment>, cs: seq<Candidate>) {
    forall c | c in cs :: Within(segments, c)
  }

  /** The whole search. `ranked` lists the candidates, best first, and `picks` the places of
      those that became clips; without any candidate the whole video is the only clip. */
  method FindClips(segments: seq<Segment>, scores: map<nat, real>, editorials: map<nat, Editorial>, limits: Limits,
      requested: int)
    returns (clips: seq<Clip>, ghost ranked: seq<Candidate>, ghost picks: seq<nat>)
    ensures segments == [] ==> clips == []
    ensures |clips| <= Clamp(requested)
    ensures forall c :: c in ranked <==> IsCandidate(segments, scores, limits, c)
    ensures AllWithin(segments, ranked) && forall p | p in picks :: p < |ranked|
    ensures forall i, j | 0 <= i < j < |ranked| :: ranked[i].score >= ranked[j].score
    ensures Spread(segments, ranked, picks)
    ensures |picks| < Clamp(requested) ==> forall i | 0 <= i < |ranked| :: i in picks || Displaced(segments, ranked, picks, i)
    ensures ranked != [] ==> picks != [] && |clips| == |picks|
    ensures ranked != [] ==> forall k | 0 <= k < |clips| ::
      picks[k] < |ranked| && Within(segments, ranked[picks[k]]) && clips[k] == BuildClip(segments, editorials, ranked[picks[k]])
    ensures ranked == [] && segments != [] ==>
      && |clips| == 1 && clips[0].first == 0 && clips[0].last == |segments| - 1
      && clips[0].score == (if segments[0].id in scores then scores[segments[0].id] else 0.0)
      && clips[0] == BuildClip(segments, editorials, Candidate(clips[0].score, 0, |segments| - 1))
  {
    clips, ranked, picks := [], [], [];
    if segments == [] { return; }
    var candidates := Windows(segments, scores, limits);
    var sorted := Rank(candidates);
    ranked := sorted;
    forall c | c in ranked ensures Within(segments, c) {
      assert IsCandidate(segments, scores, limits, c);
    }
    var selected;
    selected, picks := Select(segments, sorted, Clamp(requested));
    assert |picks| > 0 ==> picks[0] < |ranked|;
    SelectedWithin(segments, sorted, selected, picks, |sorted|);
    if |selected| == 0 {
      var score := if segments[0].id in scores then scores[segments[0].id] else 0.0;
      selected := [Candidate(score, 0, |segments| - 1)];
    }
    clips := BuildClips(segments, editorials, selected);
  }

  method BuildClips(segments: seq<Segment>, editorials: map<nat, Editorial>, selected: seq<Candidate>)
    returns (clips: seq<Clip>)
    requires AllWithin(segments, selected)
    ensures |clips| == |selected|
    ensures forall k | 0 <= k < |clips| :: Within(segments, selected[k]) && clips[k] == BuildClip(segments, editorials, selected[k])
  {
    clips := [];
    var i := 0;
    while i < |selected|
      invariant 0 <= i <= |selected| && |clips| == i
      invariant forall k | 0 <= k < i :: Within(segments, selected[k]) && clips[k] == BuildClip(segments, editorials, selected[k])
    {
      assert selected[i] in selected;
      clips := clips + [BuildClip(segments, editorials, selected[i])];
      i := i + 1;
    }
  }
}
