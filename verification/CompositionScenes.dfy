/** The scenes of a plan: maximal runs of samples that show the same thing. Times are those
    before rounding to milliseconds. */
module CompositionScenes {
  import opened Common
  import opened CompositionSamples

  datatype Scene<K> = Scene(
    start: real, end: real, layout: Layout, activeTrackId: Option<int>, confidence: real,
    framingSafe: bool, framingFallback: bool, keyframes: seq<K>)

  const MINIMUM_SCENE := 0.04

  /** What two samples of one scene share: everybody is visible in a split, whoever is active. */
  function Key(sample: Sample): (Layout, Option<int>) {
    (sample.layout, if sample.layout == Split then None else sample.activeTrackId)
  }

  function Keys(samples: seq<Sample>): (r: seq<(Layout, Option<int>)>)
    ensures |r| == |samples| && forall i | 0 <= i < |r| :: r[i] == Key(samples[i])
  {
    seq(|samples|, i requires 0 <= i < |samples| => Key(samples[i]))
  }

  function TotalConfidence(samples: seq<Sample>): real {
    if samples == [] then 0.0 else samples[0].confidence + TotalConfidence(samples[1..])
  }

  lemma {:induction false} TotalConfidenceConcat(a: seq<Sample>, b: seq<Sample>)
    ensures TotalConfidence(a + b) == TotalConfidence(a) + TotalConfidence(b)
  {
    if a == [] {
      assert a + b == b;
    } else {
      assert (a + b)[1..] == a[1..] + b;
      TotalConfidenceConcat(a[1..], b);
    }
  }

  lemma TotalConfidenceOne(sample: Sample)
    ensures TotalConfidence([sample]) == sample.confidence && TotalConfidence([]) == 0.0
  {
    assert [sample][1..] == [];
  }

  function SceneStart(samples: seq<Sample>, clipStart: real, a: nat): real
    requires a < |samples|
  {
    if a == 0 then clipStart else samples[a].time
  }

  function SceneEnd(samples: seq<Sample>, clipEnd: real, b: nat): real
    requires b <= |samples|
  {
    if b == |samples| then clipEnd else samples[b].time
  }

  /** The scene of the samples [a, b). */
  function SceneOf<K>(samples: seq<Sample>, keyframes: seq<K>, clipStart: real, clipEnd: real, a: nat, b: nat): Scene<K>
    requires |samples| == |keyframes| && a < b <= |samples|
  {
    var start, end := SceneStart(samples, clipStart, a), SceneEnd(samples, clipEnd, b);
    Scene(Max(clipStart, start), Min(clipEnd, Max(start + MINIMUM_SCENE, end)),
          samples[a].layout, samples[a].activeTrackId, TotalConfidence(samples[a..b]) / (b - a) as real,
          forall s | s in samples[a..b] :: s.framingSafe,
          exists s | s in samples[a..b] :: s.framingFallback,
          keyframes[a..b])
  }

  /** `cuts` are the run boundaries, both ends included. */
  ghost predicate Cuts(keys: seq<(Layout, Option<int>)>, cuts: seq<nat>) {
    && cuts != [] && cuts[0] == 0
    && forall k | 0 <= k < |cuts| - 1 :: IsRun(keys, cuts[k], cuts[k + 1])
  }

  ghost predicate ScenesUpTo<K>(samples: seq<Sample>, keyframes: seq<K>, clipStart: real, clipEnd: real,
      cuts: seq<nat>, scenes: seq<Scene<K>>) {
    && |samples| == |keyframes| && |cuts| == |scenes| + 1
    && Cuts(Keys(samples), cuts)
    && forall k | 0 <= k < |scenes| :: scenes[k] == SceneOf(samples, keyframes, clipStart, clipEnd, cuts[k], cuts[k + 1])
  }

  /** The scenes of all samples. */
  ghost predicate AreScenes<K>(samples: seq<Sample>, keyframes: seq<K>, clipStart: real, clipEnd: real,
      cuts: seq<nat>, scenes: seq<Scene<K>>) {
    ScenesUpTo(samples, keyframes, clipStart, clipEnd, cuts, scenes) && cuts[|cuts| - 1] == |samples|
  }

  method Scenes<K>(samples: seq<Sample>, keyframes: seq<K>, clipStart: real, clipEnd: real)
    returns (scenes: seq<Scene<K>>)
    requires |samples| == |keyframes|
    ensures exists cuts :: AreScenes(samples, keyframes, clipStart, clipEnd, cuts, scenes)
  {
    scenes := [];
    ghost var cuts: seq<nat> := [0];
    ghost var keys := Keys(samples);
    var index := 0;
    while index < |samples|
      invariant 0 <= index <= |samples|
      invariant index == 0 || index == |samples| || keys[index] != keys[index - 1]
      invariant ScenesUpTo(samples, keyframes, clipStart, clipEnd, cuts, scenes)
      invariant cuts[|cuts| - 1] == index
    {
      var end := index + 1;
      while end < |samples| && samples[end].layout == samples[index].layout
          && (samples[index].layout == Split || samples[end].activeTrackId == samples[index].activeTrackId)
        invariant index < end <= |samples|
        invariant forall k | index <= k < end :: keys[k] == keys[index]
      {
        assert Key(samples[end]) == Key(samples[index]);
        end := end + 1;
      }
      assert end < |samples| ==> Key(samples[end]) != Key(samples[index]);
      var scene := SceneOf(samples, keyframes, clipStart, clipEnd, index, end);
      OneMoreScene(samples, keyframes, clipStart, clipEnd, cuts, scenes, index, end);
      scenes := scenes + [scene];
      cuts := cuts + [end];
      index := end;
    }
    assert AreScenes(samples, keyframes, clipStart, clipEnd, cuts, scenes);
  }

  lemma OneMoreScene<K>(samples: seq<Sample>, keyframes: seq<K>, clipStart: real, clipEnd: real, cuts: seq<nat>,
      scenes: seq<Scene<K>>, index: nat, end: nat)
    requires ScenesUpTo(samples, keyframes, clipStart, clipEnd, cuts, scenes) && cuts[|cuts| - 1] == index
    requires IsRun(Keys(samples), index, end)
    ensures ScenesUpTo(samples, keyframes, clipStart, clipEnd, cuts + [end], scenes + [SceneOf(samples, keyframes, clipStart, clipEnd, index, end)])
  {
    var cuts', scenes' := cuts + [end], scenes + [SceneOf(samples, keyframes, clipStart, clipEnd, index, end)];
    forall k | 0 <= k < |cuts'| - 1 ensures IsRun(Keys(samples), cuts'[k], cuts'[k + 1]) {
      if k < |cuts| - 1 {
        assert IsRun(Keys(samples), cuts[k], cuts[k + 1]);
      }
    }
    forall k | 0 <= k < |scenes'|
      ensures scenes'[k] == SceneOf(samples, keyframes, clipStart, clipEnd, cuts'[k], cuts'[k + 1])
    {
      if k < |scenes| {
        assert scenes[k] == SceneOf(samples, keyframes, clipStart, clipEnd, cuts[k], cuts[k + 1]);
      }
    }
  }

  // ----- what a scene shows

  /** The samples [a, b) and their scene: one layout, outside splits one person, the mean
      confidence, safe only if all are, a fallback if any is. */
  ghost predicate Shows<K>(samples: seq<Sample>, a: nat, b: nat, scene: Scene<K>) {
    && a < b <= |samples|
    && (forall i | a <= i < b :: samples[i].layout == scene.layout)
    && (forall i | a <= i < b && scene.layout != Split :: samples[i].activeTrackId == scene.activeTrackId)
    && scene.confidence == TotalConfidence(samples[a..b]) / (b - a) as real
    && (scene.framingSafe <==> forall i | a <= i < b :: samples[i].framingSafe)
    && (scene.framingFallback <==> exists i | a <= i < b :: samples[i].framingFallback)
  }

  /** One scene after the other shows all samples, in order, and no two neighbouring ones show the same. */
  ghost predicate AllShown<K>(samples: seq<Sample>, cuts: seq<nat>, scenes: seq<Scene<K>>) {
    && |cuts| == |scenes| + 1 && cuts[0] == 0 && cuts[|scenes|] == |samples|
    && (forall k | 0 <= k < |scenes| :: Shows(samples, cuts[k], cuts[k + 1], scenes[k]))
    && (forall k | 0 < k < |scenes| ::
          scenes[k].layout != scenes[k - 1].layout ||
          (scenes[k].layout != Split && scenes[k].activeTrackId != scenes[k - 1].activeTrackId))
  }

  lemma SceneShows<K>(samples: seq<Sample>, keyframes: seq<K>, clipStart: real, clipEnd: real, a: nat, b: nat)
    requires |samples| == |keyframes| && IsRun(Keys(samples), a, b)
    ensures Shows(samples, a, b, SceneOf(samples, keyframes, clipStart, clipEnd, a, b))
  {
    SameKeys(samples, a, b);
    FlagsOver(samples, a, b);
  }

  lemma SameKeys(samples: seq<Sample>, a: nat, b: nat)
    requires IsRun(Keys(samples), a, b)
    ensures forall i | a <= i < b :: samples[i].layout == samples[a].layout
    ensures forall i | a <= i < b && samples[a].layout != Split :: samples[i].activeTrackId == samples[a].activeTrackId
  {
    forall i | a <= i < b ensures Key(samples[i]) == Key(samples[a]) {
      assert Keys(samples)[i] == Keys(samples)[a];
    }
  }

  lemma FlagsOver(samples: seq<Sample>, a: nat, b: nat)
    requires a < b <= |samples|
    ensures (forall s | s in samples[a..b] :: s.framingSafe) <==> forall i | a <= i < b :: samples[i].framingSafe
    ensures (exists s | s in samples[a..b] :: s.framingFallback) <==> exists i | a <= i < b :: samples[i].framingFallback
  {
    assert forall i | a <= i < b :: samples[a..b][i - a] == samples[i] && samples[i] in samples[a..b];
  }

  lemma ScenesShow<K>(samples: seq<Sample>, keyframes: seq<K>, clipStart: real, clipEnd: real, cuts: seq<nat>,
      scenes: seq<Scene<K>>)
    requires AreScenes(samples, keyframes, clipStart, clipEnd, cuts, scenes)
    ensures AllShown(samples, cuts, scenes)
  {
    forall k | 0 <= k < |scenes| ensures Shows(samples, cuts[k], cuts[k + 1], scenes[k]) {
      SceneShows(samples, keyframes, clipStart, clipEnd, cuts[k], cuts[k + 1]);
    }
    forall k | 0 < k < |scenes|
      ensures scenes[k].layout != scenes[k - 1].layout ||
        (scenes[k].layout != Split && scenes[k].activeTrackId != scenes[k - 1].activeTrackId)
    {
      var a, b := cuts[k - 1], cuts[k];
      assert IsRun(Keys(samples), a, b) && IsRun(Keys(samples), b, cuts[k + 1]);
      assert Key(samples[b]) != Key(samples[a]);
      assert Shows(samples, a, b, scenes[k - 1]) && Shows(samples, b, cuts[k + 1], scenes[k]);
    }
  }

  // ----- tiling

  /** Two neighbouring scenes meet exactly when the first is not too short, or the second
      starts where the clip ends. */
  lemma SceneMeetsNextIff<K>(samples: seq<Sample>, keyframes: seq<K>, clipStart: real, clipEnd: real, a: nat,
      b: nat, c: nat)
    requires |samples| == |keyframes| && a < b < c <= |samples|
    requires clipStart <= samples[b].time <= clipEnd
    ensures SceneOf(samples, keyframes, clipStart, clipEnd, a, b).end == SceneOf(samples, keyframes, clipStart, clipEnd, b, c).start
      <==> samples[b].time - (if a == 0 then clipStart else samples[a].time) >= 0.04 || samples[b].time == clipEnd
  {
  }

  /** Samples inside the clip and at least 40 ms apart, the first scene's start included. */
  ghost predicate WellSpaced(samples: seq<Sample>, clipStart: real, clipEnd: real) {
    && (forall i | 0 <= i < |samples| :: clipStart <= samples[i].time <= clipEnd)
    && (forall i, j | 0 <= i < j < |samples| :: samples[j].time - samples[i].time >= 0.04)
  }

  /** From end to end of the clip without gap or overlap. */
  predicate Tiles<K>(scenes: seq<Scene<K>>, clipStart: real, clipEnd: real) {
    && scenes != [] && scenes[0].start == clipStart && scenes[|scenes| - 1].end == clipEnd
    && (forall k | 0 <= k < |scenes| - 1 :: scenes[k].end == scenes[k + 1].start)
    && (forall k | 0 <= k < |scenes| :: clipStart <= scenes[k].start <= scenes[k].end <= clipEnd)
  }

  /** The scenes tile the clip. */
  lemma ScenesTile<K>(samples: seq<Sample>, keyframes: seq<K>, clipStart: real, clipEnd: real, cuts: seq<nat>,
      scenes: seq<Scene<K>>)
    requires AreScenes(samples, keyframes, clipStart, clipEnd, cuts, scenes)
    requires samples != [] && clipStart < clipEnd && WellSpaced(samples, clipStart, clipEnd)
    ensures Tiles(scenes, clipStart, clipEnd)
  {
    forall k | 0 <= k < |scenes| - 1 ensures scenes[k].end == scenes[k + 1].start {
      var a, b, c := cuts[k], cuts[k + 1], cuts[k + 2];
      assert IsRun(Keys(samples), a, b) && IsRun(Keys(samples), b, c);
      SceneMeetsNextIff(samples, keyframes, clipStart, clipEnd, a, b, c);
    }
    forall k | 0 <= k < |scenes| ensures clipStart <= scenes[k].start <= scenes[k].end <= clipEnd {
      assert IsRun(Keys(samples), cuts[k], cuts[k + 1]);
    }
    assert IsRun(Keys(samples), cuts[0], cuts[1]);
    assert IsRun(Keys(samples), cuts[|cuts| - 2], cuts[|cuts| - 1]);
  }

  /** When the samples are that far apart, a scene lasts from its first sample to the next
      scene's, the first one from the clip's start and the last one to its end. */
  lemma ScenesCover<K>(samples: seq<Sample>, keyframes: seq<K>, clipStart: real, clipEnd: real, cuts: seq<nat>,
      scenes: seq<Scene<K>>, k: nat, i: nat)
    requires AreScenes(samples, keyframes, clipStart, clipEnd, cuts, scenes) && WellSpaced(samples, clipStart, clipEnd)
    requires k < |scenes| && i < |samples| && scenes[k].start <= samples[i].time < scenes[k].end
    ensures cuts[k] <= i < cuts[k + 1]
  {
    assert IsRun(Keys(samples), cuts[k], cuts[k + 1]);
  }

  // ----- nothing lost

  function AllKeyframes<K>(scenes: seq<Scene<K>>): seq<K> {
    if scenes == [] then [] else AllKeyframes(scenes[..|scenes| - 1]) + scenes[|scenes| - 1].keyframes
  }

  lemma DropLast<K>(samples: seq<Sample>, keyframes: seq<K>, clipStart: real, clipEnd: real, cuts: seq<nat>,
      scenes: seq<Scene<K>>)
    requires ScenesUpTo(samples, keyframes, clipStart, clipEnd, cuts, scenes) && scenes != []
    ensures ScenesUpTo(samples, keyframes, clipStart, clipEnd, cuts[..|cuts| - 1], scenes[..|scenes| - 1])
  {
  }

  /** The keyframes of the scenes, one after the other, are the keyframes of the clip. */
  lemma {:induction false} KeyframesKept<K>(samples: seq<Sample>, keyframes: seq<K>, clipStart: real,
      clipEnd: real, cuts: seq<nat>, scenes: seq<Scene<K>>)
    requires ScenesUpTo(samples, keyframes, clipStart, clipEnd, cuts, scenes) && cuts[|cuts| - 1] <= |samples|
    ensures AllKeyframes(scenes) == keyframes[..cuts[|cuts| - 1]]
    decreases |scenes|
  {
    if scenes != [] {
      var a, b := cuts[|cuts| - 2], cuts[|cuts| - 1];
      assert IsRun(Keys(samples), a, b);
      DropLast(samples, keyframes, clipStart, clipEnd, cuts, scenes);
      KeyframesKept(samples, keyframes, clipStart, clipEnd, cuts[..|cuts| - 1], scenes[..|scenes| - 1]);
      assert keyframes[..b] == keyframes[..a] + keyframes[a..b];
    }
  }

  /** How often neighbours differ. */
  function Switches(layouts: seq<Layout>): nat {
    if |layouts| < 2 then 0
    else Switches(layouts[..|layouts| - 1]) + if layouts[|layouts| - 2] != layouts[|layouts| - 1] then 1 else 0
  }

  function SceneLayouts<K>(scenes: seq<Scene<K>>): (r: seq<Layout>)
    ensures |r| == |scenes| && forall i | 0 <= i < |r| :: r[i] == scenes[i].layout
  {
    seq(|scenes|, i requires 0 <= i < |scenes| => scenes[i].layout)
  }

  lemma {:induction false} NoSwitchInside(layouts: seq<Layout>, a: nat, b: nat)
    requires a < b <= |layouts| && forall k | a <= k < b :: layouts[k] == layouts[a]
    ensures Switches(layouts[..b]) == Switches(layouts[..a + 1])
    decreases b - a
  {
    if b > a + 1 {
      NoSwitchInside(layouts, a, b - 1);
      assert layouts[..b][..b - 1] == layouts[..b - 1];
    }
  }

  /** The plan's layout-switch count, taken over scenes, is the count over the samples. */
  lemma {:induction false} SwitchCountKept<K>(samples: seq<Sample>, keyframes: seq<K>, clipStart: real,
      clipEnd: real, cuts: seq<nat>, scenes: seq<Scene<K>>)
    requires ScenesUpTo(samples, keyframes, clipStart, clipEnd, cuts, scenes) && cuts[|cuts| - 1] <= |samples|
    ensures Switches(SceneLayouts(scenes)) == Switches(Layouts(samples)[..cuts[|cuts| - 1]])
    decreases |scenes|
  {
    if scenes != [] {
      var n := |scenes| - 1;
      var a, b := cuts[n], cuts[n + 1];
      assert IsRun(Keys(samples), a, b);
      DropLast(samples, keyframes, clipStart, clipEnd, cuts, scenes);
      SwitchCountKept(samples, keyframes, clipStart, clipEnd, cuts[..n + 1], scenes[..n]);
      SameKeySameLayout(samples, a, b);
      if n > 0 {
        assert IsRun(Keys(samples), cuts[n - 1], a);
        SameKeySameLayout(samples, cuts[n - 1], a);
      }
      assert SceneLayouts(scenes)[..n] == SceneLayouts(scenes[..n]);
      OneMoreLayout(Layouts(samples), SceneLayouts(scenes), a, b);
    }
  }

  /** A run [a, b) of samples counts like the one layout its scene adds. */
  lemma OneMoreLayout(layouts: seq<Layout>, shown: seq<Layout>, a: nat, b: nat)
    requires a < b <= |layouts| && shown != [] && forall k | a <= k < b :: layouts[k] == shown[|shown| - 1]
    requires |shown| == 1 ==> a == 0
    requires |shown| > 1 ==> a > 0 && layouts[a - 1] == shown[|shown| - 2]
    requires Switches(shown[..|shown| - 1]) == Switches(layouts[..a])
    ensures Switches(shown) == Switches(layouts[..b])
  {
    NoSwitchInside(layouts, a, b);
    if a > 0 {
      assert layouts[..a + 1][..a] == layouts[..a];
    }
  }

  lemma SameKeySameLayout(samples: seq<Sample>, a: nat, b: nat)
    requires IsRun(Keys(samples), a, b)
    ensures forall k | a <= k < b :: Layouts(samples)[k] == samples[a].layout
  {
    forall k | a <= k < b ensures samples[k].layout == samples[a].layout {
      assert Keys(samples)[k] == Keys(samples)[a];
    }
  }

  /** Scenes of safely framed samples are safely framed. */
  lemma ScenesSafe<K>(samples: seq<Sample>, keyframes: seq<K>, clipStart: real, clipEnd: real, cuts: seq<nat>,
      scenes: seq<Scene<K>>, k: nat)
    requires ScenesUpTo(samples, keyframes, clipStart, clipEnd, cuts, scenes) && k < |scenes|
    requires forall i | 0 <= i < |samples| :: samples[i].framingSafe
    ensures scenes[k].framingSafe
  {
    assert IsRun(Keys(samples), cuts[k], cuts[k + 1]);
    forall s | s in samples[cuts[k]..cuts[k + 1]] ensures s.framingSafe {
      assert s in samples;
    }
  }
}
