/** Which track belongs to which speaker: activity is summed over the frames in which somebody
    speaks, and the pairs are accepted greedily from the highest sum down. */
module SpeakerMapping {
  import opened Common
  import opened CompositionSamples
  import opened Sorting

  /** A frame with tracked boxes, and who speaks in it; nobody when empty. */
  datatype Shot = Shot(boxes: seq<Box>, speaker: string)

  datatype Pair = Pair(score: real, speaker: string, track: int)

  predicate Tracked(shots: seq<Shot>) {
    forall i | 0 <= i < |shots| :: forall k | 0 <= k < |shots[i].boxes| :: shots[i].boxes[k].trackId.Some?
  }

  // ----- scores

  function FrameActivity(boxes: seq<Box>, track: int): real {
    if boxes == [] then 0.0
    else
      var last := boxes[|boxes| - 1];
      FrameActivity(boxes[..|boxes| - 1], track) + if last.trackId == Some(track) then last.activity else 0.0
  }

  /** How active a track is while a speaker speaks. */
  function TotalActivity(shots: seq<Shot>, speaker: string, track: int): real {
    if shots == [] || speaker == "" then 0.0
    else
      var last := shots[|shots| - 1];
      TotalActivity(shots[..|shots| - 1], speaker, track)
        + if last.speaker == speaker then FrameActivity(last.boxes, track) else 0.0
  }

  lemma {:induction false} FrameActivityConcat(a: seq<Box>, b: seq<Box>, track: int)
    ensures FrameActivity(a + b, track) == FrameActivity(a, track) + FrameActivity(b, track)
    decreases |b|
  {
    if b == [] {
      assert a + b == a;
    } else {
      assert (a + b)[..|a + b| - 1] == a + b[..|b| - 1];
      FrameActivityConcat(a, b[..|b| - 1], track);
    }
  }

  /** What single boxes count: their activity for their own track, nothing for another. */
  lemma FrameActivityOne(box: Box, track: int)
    ensures FrameActivity([box], track) == if box.trackId == Some(track) then box.activity else 0.0
  {
    assert [box][..0] == [];
  }

  /** Shots add up, and one counts only while that very speaker speaks. */
  lemma {:induction false} TotalActivityConcat(a: seq<Shot>, b: seq<Shot>, speaker: string, track: int)
    ensures TotalActivity(a + b, speaker, track) == TotalActivity(a, speaker, track) + TotalActivity(b, speaker, track)
    decreases |b|
  {
    if b == [] {
      assert a + b == a;
    } else {
      assert (a + b)[..|a + b| - 1] == a + b[..|b| - 1];
      TotalActivityConcat(a, b[..|b| - 1], speaker, track);
    }
  }

  lemma TotalActivityOne(shot: Shot, speaker: string, track: int)
    ensures TotalActivity([shot], speaker, track) ==
      if speaker != "" && shot.speaker == speaker then FrameActivity(shot.boxes, track) else 0.0
  {
    assert [shot][..0] == [];
  }

  function Score(scores: map<(string, int), real>, speaker: string, track: int): real {
    if (speaker, track) in scores then scores[(speaker, track)] else 0.0
  }

  /** What the first k boxes of a frame add to a score. */
  function Share(shot: Shot, k: nat, speaker: string, track: int): real
    requires k <= |shot.boxes|
  {
    if speaker == shot.speaker then FrameActivity(shot.boxes[..k], track) else 0.0
  }

  method ScoreTracks(shots: seq<Shot>) returns (scores: map<(string, int), real>)
    requires Tracked(shots)
    ensures forall s, t :: Score(scores, s, t) == TotalActivity(shots, s, t)
  {
    scores := map[];
    var i := 0;
    while i < |shots|
      invariant 0 <= i <= |shots|
      invariant forall s, t :: Score(scores, s, t) == TotalActivity(shots[..i], s, t)
    {
      assert shots[..i + 1][..i] == shots[..i];
      assert shots[i].boxes[..|shots[i].boxes|] == shots[i].boxes;
      if shots[i].speaker != "" {
        scores := ScoreFrame(scores, shots[i]);
      }
      i := i + 1;
    }
    assert shots[..i] == shots;
  }

  method ScoreFrame(scores0: map<(string, int), real>, shot: Shot) returns (scores: map<(string, int), real>)
    requires forall k | 0 <= k < |shot.boxes| :: shot.boxes[k].trackId.Some?
    ensures forall s, t :: Score(scores, s, t) == Score(scores0, s, t) + Share(shot, |shot.boxes|, s, t)
  {
    scores := scores0;
    var k := 0;
    while k < |shot.boxes|
      invariant 0 <= k <= |shot.boxes|
      invariant forall s, t :: Score(scores, s, t) == Score(scores0, s, t) + Share(shot, k, s, t)
    {
      var box := shot.boxes[k];
      assert shot.boxes[..k + 1][..k] == shot.boxes[..k];
      var key := (shot.speaker, box.trackId.value);
      scores := scores[key := (if key in scores then scores[key] else 0.0) + box.activity];
      k := k + 1;
    }
  }

  // ----- ranking

  /** Larger tuples first. */
  predicate NoLower(stringLe: (string, string) -> bool, p: Pair, q: Pair) {
    || p.score > q.score
    || (p.score == q.score && p.speaker != q.speaker && stringLe(q.speaker, p.speaker))
    || (p.score == q.score && p.speaker == q.speaker && p.track >= q.track)
  }

  ghost predicate TotalOrder(stringLe: (string, string) -> bool) {
    && TotalPreorder(stringLe)
    && forall a, b | stringLe(a, b) && stringLe(b, a) :: a == b
  }

  /** The pairs of the table, in whatever order they come. */
  method Pairs(scores: map<(string, int), real>) returns (pairs: seq<Pair>)
    ensures forall k | k in scores :: Pair(scores[k], k.0, k.1) in pairs
    ensures forall p | p in pairs :: (p.speaker, p.track) in scores && scores[(p.speaker, p.track)] == p.score
  {
    pairs := [];
    var keys := scores.Keys;
    while |keys| > 0
      invariant keys <= scores.Keys
      invariant forall k | k in scores && k !in keys :: Pair(scores[k], k.0, k.1) in pairs
      invariant forall p | p in pairs :: (p.speaker, p.track) in scores && scores[(p.speaker, p.track)] == p.score
      decreases |keys|
    {
      var k :| k in keys;
      pairs := pairs + [Pair(scores[k], k.0, k.1)];
      keys := keys - {k};
    }
  }

  method RankPairs(scores: map<(string, int), real>, stringLe: (string, string) -> bool) returns (ranked: seq<Pair>)
    requires TotalOrder(stringLe)
    ensures forall k | k in scores :: Pair(scores[k], k.0, k.1) in ranked
    ensures forall p | p in ranked :: (p.speaker, p.track) in scores && scores[(p.speaker, p.track)] == p.score
    ensures forall i, j | 0 <= i < j < |ranked| :: NoLower(stringLe, ranked[i], ranked[j])
    ensures forall i, j | 0 <= i < j < |ranked| :: ranked[i].score >= ranked[j].score
    ensures forall i, j | 0 <= i < j < |ranked| && ranked[i].score == ranked[j].score ::
      if ranked[i].speaker == ranked[j].speaker then ranked[i].track >= ranked[j].track
      else stringLe(ranked[j].speaker, ranked[i].speaker)
  {
    var pairs := Pairs(scores);
    var le := (p: Pair, q: Pair) => NoLower(stringLe, p, q);
    ranked := StableSort(le, pairs);
    assert TotalPreorder(le) by { NoLowerIsTotal(stringLe); }
    SortSorts(le, pairs);
    forall p ensures p in ranked <==> p in pairs {
      SortKeepsElements(le, pairs, p);
    }
    forall i, j | 0 <= i < j < |ranked| ensures NoLower(stringLe, ranked[i], ranked[j]) {
      assert le(ranked[i], ranked[j]);
    }
  }

  lemma NoLowerIsTotal(stringLe: (string, string) -> bool)
    requires TotalOrder(stringLe)
    ensures forall p, q :: NoLower(stringLe, p, q) || NoLower(stringLe, q, p)
    ensures forall p, q, r :: NoLower(stringLe, p, q) && NoLower(stringLe, q, r) ==> NoLower(stringLe, p, r)
  {
    forall p, q ensures NoLower(stringLe, p, q) || NoLower(stringLe, q, p) {
      assert stringLe(p.speaker, q.speaker) || stringLe(q.speaker, p.speaker);
    }
    forall p: Pair, q: Pair, r: Pair | NoLower(stringLe, p, q) && NoLower(stringLe, q, r) ensures NoLower(stringLe, p, r) {
      NoLowerTransitive(stringLe, p, q, r);
    }
  }

  lemma NoLowerTransitive(stringLe: (string, string) -> bool, p: Pair, q: Pair, r: Pair)
    requires TotalOrder(stringLe) && NoLower(stringLe, p, q) && NoLower(stringLe, q, r)
    ensures NoLower(stringLe, p, r)
  {
    if p.score == q.score == r.score {
      if p.speaker != q.speaker && q.speaker != r.speaker {
        assert stringLe(r.speaker, q.speaker) && stringLe(q.speaker, p.speaker);
        assert stringLe(r.speaker, p.speaker);
        if p.speaker == r.speaker {
          assert false;
        }
      }
    }
  }

  // ----- the greedy assignment

  ghost predicate OneToOne(mapping: map<string, int>) {
    forall s, s' | s in mapping && s' in mapping && mapping[s] == mapping[s'] :: s == s'
  }

  /** The pair is chosen, or it lost its speaker or its track to a pair that scores no less. */
  ghost predicate Settled(scores: map<(string, int), real>, mapping: map<string, int>, speaker: string, track: int) {
    var score := Score(scores, speaker, track);
    || (speaker in mapping && Score(scores, speaker, mapping[speaker]) >= score)
    || (exists s :: s in mapping && mapping[s] == track && Score(scores, s, track) >= score)
  }

  ghost predicate Ranked(scores: map<(string, int), real>, ranked: seq<Pair>) {
    && (forall p | p in ranked :: Score(scores, p.speaker, p.track) == p.score)
    && (forall i, j | 0 <= i < j < |ranked| :: ranked[i].score >= ranked[j].score)
  }

  /** The speakers of the taken tracks are their owners. */
  ghost predicate Owned(mapping: map<string, int>, takenTracks: set<int>, owner: map<int, string>) {
    && (forall s | s in mapping :: mapping[s] in takenTracks)
    && (forall t | t in takenTracks :: t in owner && owner[t] in mapping && mapping[owner[t]] == t)
  }

  /** The first n pairs have been dealt with. */
  ghost predicate Dealt(scores: map<(string, int), real>, ranked: seq<Pair>, mapping: map<string, int>, n: nat)
    requires n <= |ranked|
  {
    && OneToOne(mapping)
    && (forall s | s in mapping :: Score(scores, s, mapping[s]) > 0.0)
    && (forall s, k | s in mapping && n <= k < |ranked| :: Score(scores, s, mapping[s]) >= ranked[k].score)
    && (forall k | 0 <= k < n && ranked[k].score > 0.0 :: Settled(scores, mapping, ranked[k].speaker, ranked[k].track))
  }

  method Greedy(scores: map<(string, int), real>, ranked: seq<Pair>) returns (mapping: map<string, int>)
    requires Ranked(scores, ranked)
    ensures OneToOne(mapping)
    ensures forall s | s in mapping :: Score(scores, s, mapping[s]) > 0.0
    ensures forall p | p in ranked && p.score > 0.0 :: Settled(scores, mapping, p.speaker, p.track)
  {
    mapping := map[];
    var takenTracks: set<int> := {};
    ghost var owner: map<int, string> := map[];
    var i := 0;
    while i < |ranked|
      invariant 0 <= i <= |ranked|
      invariant Owned(mapping, takenTracks, owner)
      invariant Dealt(scores, ranked, mapping, i)
    {
      var p := ranked[i];
      if p.score <= 0.0 || p.speaker in mapping || p.track in takenTracks {
        PairSkipped(scores, ranked, mapping, takenTracks, owner, i);
      } else {
        PairTaken(scores, ranked, mapping, takenTracks, owner, i);
        mapping := mapping[p.speaker := p.track];
        takenTracks := takenTracks + {p.track};
        owner := owner[p.track := p.speaker];
      }
      i := i + 1;
    }
  }

  lemma PairSkipped(scores: map<(string, int), real>, ranked: seq<Pair>, mapping: map<string, int>,
      takenTracks: set<int>, owner: map<int, string>, i: nat)
    requires Ranked(scores, ranked) && i < |ranked| && Owned(mapping, takenTracks, owner) && Dealt(scores, ranked, mapping, i)
    requires ranked[i].score <= 0.0 || ranked[i].speaker in mapping || ranked[i].track in takenTracks
    ensures Dealt(scores, ranked, mapping, i + 1)
  {
    var p := ranked[i];
    if p.score > 0.0 {
      TakenSettles(scores, mapping, p, if p.speaker in mapping then p.speaker else owner[p.track]);
    }
  }

  lemma PairTaken(scores: map<(string, int), real>, ranked: seq<Pair>, mapping: map<string, int>,
      takenTracks: set<int>, owner: map<int, string>, i: nat)
    requires Ranked(scores, ranked) && i < |ranked| && Owned(mapping, takenTracks, owner) && Dealt(scores, ranked, mapping, i)
    requires var p := ranked[i]; p.score > 0.0 && p.speaker !in mapping && p.track !in takenTracks
    ensures var p := ranked[i];
      && Owned(mapping[p.speaker := p.track], takenTracks + {p.track}, owner[p.track := p.speaker])
      && Dealt(scores, ranked, mapping[p.speaker := p.track], i + 1)
  {
    var p := ranked[i];
    assert p in ranked && Score(scores, p.speaker, p.track) == p.score;
    var after := mapping[p.speaker := p.track];
    TakenSettles(scores, after, p, p.speaker);
    forall k | 0 <= k < i && ranked[k].score > 0.0
      ensures Settled(scores, after, ranked[k].speaker, ranked[k].track)
    {
      SettledStays(scores, mapping, after, ranked[k].speaker, ranked[k].track);
    }
  }

  lemma TakenSettles(scores: map<(string, int), real>, mapping: map<string, int>, p: Pair, s: string)
    requires Score(scores, p.speaker, p.track) == p.score
    requires s in mapping && (s == p.speaker || mapping[s] == p.track) && Score(scores, s, mapping[s]) >= p.score
    ensures Settled(scores, mapping, p.speaker, p.track)
  {
  }

  lemma SettledStays(scores: map<(string, int), real>, before: map<string, int>, after: map<string, int>,
      speaker: string, track: int)
    requires Settled(scores, before, speaker, track)
    requires forall s | s in before :: s in after && after[s] == before[s]
    ensures Settled(scores, after, speaker, track)
  {
    if !(speaker in before && Score(scores, speaker, before[speaker]) >= Score(scores, speaker, track)) {
      var s :| s in before && before[s] == track && Score(scores, s, track) >= Score(scores, speaker, track);
      assert s in after && after[s] == track;
    }
  }

  /** No better use of the pair was passed over: the speaker has a track, or the track a
      speaker, at a score that is no lower. */
  ghost predicate Unblocked(shots: seq<Shot>, mapping: map<string, int>, speaker: string, track: int) {
    || (speaker in mapping && TotalActivity(shots, speaker, mapping[speaker]) >= TotalActivity(shots, speaker, track))
    || (exists s :: s in mapping && mapping[s] == track && TotalActivity(shots, s, track) >= TotalActivity(shots, speaker, track))
  }

  /** One to one, positive, and without a blocking pair. */
  method MapSpeakers(shots: seq<Shot>, stringLe: (string, string) -> bool) returns (mapping: map<string, int>)
    requires Tracked(shots) && TotalOrder(stringLe)
    ensures OneToOne(mapping)
    ensures forall s | s in mapping :: TotalActivity(shots, s, mapping[s]) > 0.0
    ensures forall s, t :: TotalActivity(shots, s, t) > 0.0 ==> Unblocked(shots, mapping, s, t)
  {
    var scores := ScoreTracks(shots);
    var ranked := RankPairs(scores, stringLe);
    mapping := Greedy(scores, ranked);
    forall s, t | TotalActivity(shots, s, t) > 0.0
      ensures Unblocked(shots, mapping, s, t)
    {
      assert Score(scores, s, t) > 0.0;
      assert Pair(scores[(s, t)], s, t) in ranked;
      SettledUnblocks(shots, scores, mapping, s, t);
    }
  }

  lemma SettledUnblocks(shots: seq<Shot>, scores: map<(string, int), real>, mapping: map<string, int>,
      speaker: string, track: int)
    requires Settled(scores, mapping, speaker, track)
    requires forall s, t :: Score(scores, s, t) == TotalActivity(shots, s, t)
    ensures Unblocked(shots, mapping, speaker, track)
  {
    if !(speaker in mapping && Score(scores, speaker, mapping[speaker]) >= Score(scores, speaker, track)) {
      var s :| s in mapping && mapping[s] == track && Score(scores, s, track) >= Score(scores, speaker, track);
      assert TotalActivity(shots, s, track) >= TotalActivity(shots, speaker, track);
    }
  }
}
