/** Captions of a clip: the transcript's words in order, those that the clip shows, and their
    grouping into cues. */
module Captions {
  import opened Common
  import opened Sorting

  datatype Word = Word(text: string, start: real, end: real)

  // ----- `str.strip` and the punctuation test

  predicate Space(c: char) {
    || '\t' <= c <= '\r' || '\U{001C}' <= c <= ' ' || c == '\U{0085}' || c == '\U{00A0}' || c == '\U{1680}'
    || '\U{2000}' <= c <= '\U{200A}' || c == '\U{2028}' || c == '\U{2029}' || c == '\U{202F}' || c == '\U{205F}' || c == '\U{3000}'
  }

  function StripRight(s: string): string {
    if s != [] && Space(s[|s| - 1]) then StripRight(s[..|s| - 1]) else s
  }

  function Strip(s: string): string {
    if s != [] && Space(s[0]) then Strip(s[1..]) else StripRight(s)
  }

  ghost predicate Blank(s: string) {
    forall i | 0 <= i < |s| :: Space(s[i])
  }

  lemma {:induction false} StripRightCuts(s: string) returns (right: string)
    ensures s == StripRight(s) + right && Blank(right)
    ensures StripRight(s) != "" ==> !Space(StripRight(s)[|StripRight(s)| - 1])
    decreases |s|
  {
    right := "";
    if s != [] && Space(s[|s| - 1]) {
      var r := StripRightCuts(s[..|s| - 1]);
      right := r + [s[|s| - 1]];
      assert s == s[..|s| - 1] + [s[|s| - 1]];
    }
  }

  /** White space is cut off at both ends, all of it and nothing else. */
  lemma {:induction false} StripCuts(s: string) returns (left: string, right: string)
    ensures s == left + Strip(s) + right && Blank(left) && Blank(right)
    ensures var t := Strip(s); t != "" ==> !Space(t[0]) && !Space(t[|t| - 1])
  {
    if s != [] && Space(s[0]) {
      left, right := StripCuts(s[1..]);
      left := [s[0]] + left;
    } else {
      left := "";
      right := StripRightCuts(s);
      assert StripRight(s) != "" ==> StripRight(s)[0] == s[0];
    }
  }

  predicate EndsSentence(s: string) {
    var t := StripRight(s);
    t != [] && t[|t| - 1] in ".!?:;"
  }

  // ----- the words of a transcript

  /** A segment with timed words, or with bare text and its own times. */
  datatype Segment = Segment(words: seq<Word>, texts: seq<string>, start: real, end: real)

  /** Bare words share the time of their segment evenly. */
  function Evenly(segment: Segment): (r: seq<Word>)
    ensures |r| == |segment.texts|
  {
    var n := |segment.texts|;
    if n == 0 then []
    else
      var step := (segment.end - segment.start) / n as real;
      seq(n, i requires 0 <= i < n => Word(segment.texts[i], segment.start + i as real * step, segment.start + (i + 1) as real * step))
  }

  lemma Steps(start: real, step: real, i: nat)
    requires step > 0.0
    ensures start + i as real * step < start + (i + 1) as real * step
  {
    assert (i + 1) as real * step == i as real * step + step;
  }

  lemma LastStep(start: real, end: real, n: nat)
    requires n > 0
    ensures start + n as real * ((end - start) / n as real) == end
  {
  }

  /** The even shares tile the segment, and none is empty. */
  lemma EvenlyTiles(segment: Segment)
    requires segment.texts != [] && segment.start < segment.end
    ensures var r := Evenly(segment);
      && r[0].start == segment.start && r[|r| - 1].end == segment.end
      && (forall i | 0 <= i < |r| :: r[i].text == segment.texts[i] && r[i].start < r[i].end)
      && (forall i | 0 <= i < |r| - 1 :: r[i].end == r[i + 1].start)
  {
    var n := |segment.texts|;
    var step := (segment.end - segment.start) / n as real;
    assert step > 0.0;
    forall i | 0 <= i < n ensures Evenly(segment)[i].start < Evenly(segment)[i].end {
      Steps(segment.start, step, i);
    }
    LastStep(segment.start, segment.end, n);
  }

  function SegmentWords(segment: Segment): (r: seq<Word>)
    ensures segment.words != [] ==> r == segment.words
    ensures segment.words == [] ==> |r| == |segment.texts| && forall i | 0 <= i < |r| :: r[i].text == segment.texts[i]
  {
    if segment.words != [] then segment.words else Evenly(segment)
  }

  function AllWords(segments: seq<Segment>): seq<Word> {
    if segments == [] then [] else AllWords(segments[..|segments| - 1]) + SegmentWords(segments[|segments| - 1])
  }

  lemma {:induction false} AllWordsConcat(a: seq<Segment>, b: seq<Segment>)
    ensures AllWords(a + b) == AllWords(a) + AllWords(b)
    decreases |b|
  {
    if b == [] {
      assert a + b == a;
    } else {
      assert (a + b)[..|a + b| - 1] == a + b[..|b| - 1];
      AllWordsConcat(a, b[..|b| - 1]);
    }
  }

  predicate ByStart(v: Word, w: Word) {
    v.start <= w.start
  }

  ghost predicate InOrder(words: seq<Word>) {
    forall i, j | 0 <= i < j < |words| :: words[i].start <= words[j].start
  }

  ghost predicate Positive(words: seq<Word>) {
    forall i | 0 <= i < |words| :: words[i].start < words[i].end
  }

  method TranscriptWords(segments: seq<Segment>) returns (words: seq<Word>)
    ensures words == StableSort(ByStart, AllWords(segments))
    ensures multiset(words) == multiset(AllWords(segments))
    ensures InOrder(words)
    ensures forall w: Word :: TiedWith(ByStart, w, words) == TiedWith(ByStart, w, AllWords(segments))
  {
    var all: seq<Word> := [];
    var i := 0;
    while i < |segments|
      invariant 0 <= i <= |segments| && all == AllWords(segments[..i])
    {
      assert segments[..i + 1][..i] == segments[..i];
      all := all + SegmentWords(segments[i]);
      i := i + 1;
    }
    assert segments[..i] == segments;
    words := StableSort(ByStart, all);
    SortPermutes(ByStart, all);
    SortSorts(ByStart, all);
    forall w: Word ensures TiedWith(ByStart, w, words) == TiedWith(ByStart, w, all) {
      SortStable(ByStart, w, all);
    }
    forall i, j | 0 <= i < j < |words| ensures words[i].start <= words[j].start {
      assert ByStart(words[i], words[j]);
    }
  }

  // ----- the words a clip shows

  predicate Shown(w: Word, clipStart: real, clipEnd: real) {
    w.end > clipStart && w.start < clipEnd
  }

  function ShownWords(words: seq<Word>, clipStart: real, clipEnd: real): seq<Word> {
    if words == [] then []
    else if Shown(words[0], clipStart, clipEnd) then [words[0]] + ShownWords(words[1..], clipStart, clipEnd)
    else ShownWords(words[1..], clipStart, clipEnd)
  }

  ghost predicate AllShown(words: seq<Word>, clipStart: real, clipEnd: real) {
    forall i | 0 <= i < |words| :: Shown(words[i], clipStart, clipEnd)
  }

  lemma {:induction false} ShownElements(words: seq<Word>, clipStart: real, clipEnd: real)
    ensures forall w :: w in ShownWords(words, clipStart, clipEnd) <==> w in words && Shown(w, clipStart, clipEnd)
  {
    if words != [] {
      ShownElements(words[1..], clipStart, clipEnd);
      assert words == [words[0]] + words[1..];
    }
  }

  /** `shown` are the words at the places `picks`, which are in order and just those of words
      that overlap the clip. */
  ghost predicate Picked(words: seq<Word>, clipStart: real, clipEnd: real, shown: seq<Word>, picks: seq<nat>) {
    && |picks| == |shown|
    && (forall k, m | 0 <= k < m < |picks| :: picks[k] < picks[m])
    && (forall k | 0 <= k < |picks| :: picks[k] < |words| && shown[k] == words[picks[k]])
    && (forall i | 0 <= i < |words| :: i in picks <==> words[i].end > clipStart && words[i].start < clipEnd)
  }

  function Shifted(picks: seq<nat>): (r: seq<nat>)
    ensures |r| == |picks| && forall k | 0 <= k < |r| :: r[k] == picks[k] + 1
  {
    seq(|picks|, k requires 0 <= k < |picks| => picks[k] + 1)
  }

  lemma InShifted(picks: seq<nat>, i: nat)
    ensures i in Shifted(picks) <==> i > 0 && i - 1 in picks
  {
    if i > 0 && i - 1 in picks {
      var k :| 0 <= k < |picks| && picks[k] == i - 1;
      assert Shifted(picks)[k] == i;
    }
  }

  lemma PickedSkip(word: Word, words: seq<Word>, clipStart: real, clipEnd: real, shown: seq<Word>, picks: seq<nat>)
    requires Picked(words, clipStart, clipEnd, shown, picks) && !Shown(word, clipStart, clipEnd)
    ensures Picked([word] + words, clipStart, clipEnd, shown, Shifted(picks))
  {
    var all := [word] + words;
    forall i | 0 <= i < |all| ensures i in Shifted(picks) <==> all[i].end > clipStart && all[i].start < clipEnd {
      InShifted(picks, i);
      assert i > 0 ==> all[i] == words[i - 1];
    }
  }

  lemma PickedKeep(word: Word, words: seq<Word>, clipStart: real, clipEnd: real, shown: seq<Word>, picks: seq<nat>)
    requires Picked(words, clipStart, clipEnd, shown, picks) && Shown(word, clipStart, clipEnd)
    ensures Picked([word] + words, clipStart, clipEnd, [word] + shown, [0] + Shifted(picks))
  {
    var all, places := [word] + words, [0] + Shifted(picks);
    forall i | 0 <= i < |all| ensures i in places <==> all[i].end > clipStart && all[i].start < clipEnd {
      InShifted(picks, i);
      assert i in places <==> i == 0 || i in Shifted(picks);
      assert i > 0 ==> all[i] == words[i - 1];
    }
    forall k | 0 <= k < |places| ensures places[k] < |all| && ([word] + shown)[k] == all[places[k]] {
      if k > 0 { assert places[k] == picks[k - 1] + 1; }
    }
  }

  /** The words that are shown stay in their order, each as often as it was. */
  lemma {:induction false} ShownAreTheShown(words: seq<Word>, clipStart: real, clipEnd: real) returns (picks: seq<nat>)
    ensures Picked(words, clipStart, clipEnd, ShownWords(words, clipStart, clipEnd), picks)
  {
    if words == [] {
      picks := [];
    } else {
      var rest := ShownAreTheShown(words[1..], clipStart, clipEnd);
      assert words == [words[0]] + words[1..];
      if Shown(words[0], clipStart, clipEnd) {
        PickedKeep(words[0], words[1..], clipStart, clipEnd, ShownWords(words[1..], clipStart, clipEnd), rest);
        picks := [0] + Shifted(rest);
      } else {
        PickedSkip(words[0], words[1..], clipStart, clipEnd, ShownWords(words[1..], clipStart, clipEnd), rest);
        picks := Shifted(rest);
      }
    }
  }

  lemma {:induction false} ShownKeepsOrder(words: seq<Word>, clipStart: real, clipEnd: real)
    requires InOrder(words)
    ensures InOrder(ShownWords(words, clipStart, clipEnd))
  {
    if words != [] {
      var rest := words[1..];
      ShownKeepsOrder(rest, clipStart, clipEnd);
      var r := ShownWords(rest, clipStart, clipEnd);
      forall i | 0 <= i < |r| ensures words[0].start <= r[i].start {
        ShownElements(rest, clipStart, clipEnd);
        assert r[i] in rest;
        var k :| 0 <= k < |rest| && rest[k] == r[i];
        assert words[k + 1] == r[i];
      }
    }
  }

  lemma ShownAreShown(words: seq<Word>, clipStart: real, clipEnd: real)
    requires Positive(words)
    ensures var r := ShownWords(words, clipStart, clipEnd); Positive(r) && AllShown(r, clipStart, clipEnd)
  {
    var r := ShownWords(words, clipStart, clipEnd);
    ShownElements(words, clipStart, clipEnd);
    forall i | 0 <= i < |r| ensures r[i].start < r[i].end && Shown(r[i], clipStart, clipEnd) {
      assert r[i] in r;
      var k :| 0 <= k < |words| && words[k] == r[i];
    }
  }

  // ----- groups

  function Clamp(wordsPerCue: int): (r: nat)
    ensures 1 <= r <= 8 && (1 <= wordsPerCue <= 8 ==> r == wordsPerCue)
    ensures (wordsPerCue < 1 ==> r == 1) && (wordsPerCue > 8 ==> r == 8)
  {
    if wordsPerCue < 1 then 1 else if wordsPerCue > 8 then 8 else wordsPerCue
  }

  /** A group that began at word a ends after word i. */
  predicate Ends(words: seq<Word>, perCue: nat, a: nat, i: nat)
    requires a <= i < |words|
  {
    || i - a + 1 >= perCue
    || (i + 1 < |words| && words[i + 1].start - words[i].end >= 0.32)
    || words[i].end - words[a].start >= 2.2
    || (EndsSentence(words[i].text) && i - a + 1 >= 2)
    || i + 1 == |words|
  }

  /** The group that began at word a goes on past every word before b. */
  ghost predicate GoesOn(words: seq<Word>, perCue: nat, a: nat, b: nat)
    requires b <= |words|
  {
    forall i | a <= i < b :: !Ends(words, perCue, a, i)
  }

  /** The group of the words [a, b): it ends after its last word and not before. */
  ghost predicate IsGroup(words: seq<Word>, perCue: nat, a: nat, b: nat) {
    && a < b <= |words|
    && Ends(words, perCue, a, b - 1)
    && GoesOn(words, perCue, a, b - 1)
  }

  ghost predicate Grouped(words: seq<Word>, perCue: nat, cuts: seq<nat>, groups: seq<seq<Word>>) {
    && |cuts| == |groups| + 1 && cuts[0] == 0
    && forall k | 0 <= k < |groups| :: IsGroup(words, perCue, cuts[k], cuts[k + 1]) && groups[k] == words[cuts[k]..cuts[k + 1]]
  }

  ghost predicate AllGrouped(words: seq<Word>, perCue: nat, cuts: seq<nat>, groups: seq<seq<Word>>) {
    Grouped(words, perCue, cuts, groups) && cuts[|groups|] == |words|
  }

  method Groups(words: seq<Word>, perCue: nat) returns (groups: seq<seq<Word>>)
    ensures exists cuts :: AllGrouped(words, perCue, cuts, groups)
  {
    groups := [];
    ghost var cuts: seq<nat> := [0];
    var pending: seq<Word> := [];
    var index := 0;
    while index < |words|
      invariant Grouped(words, perCue, cuts, groups)
      invariant cuts[|cuts| - 1] <= index <= |words|
      invariant pending == words[cuts[|cuts| - 1]..index]
      invariant GoesOn(words, perCue, cuts[|cuts| - 1], index)
      invariant index == |words| ==> pending == []
    {
      ghost var a := cuts[|cuts| - 1];
      var word := words[index];
      pending := pending + [word];
      assert pending == words[a..index + 1];
      var last := index + 1 == |words|;
      var pause := if last then 0.0 else words[index + 1].start - word.end;
      var duration := word.end - pending[0].start;
      if |pending| >= perCue || pause >= 0.32 || duration >= 2.2 || (EndsSentence(word.text) && |pending| >= 2) || last {
        OneMoreGroup(words, perCue, cuts, groups, index + 1);
        groups := groups + [pending];
        cuts := cuts + [index + 1];
        pending := [];
      }
      index := index + 1;
    }
    assert AllGrouped(words, perCue, cuts, groups);
  }

  lemma OneMoreGroup(words: seq<Word>, perCue: nat, cuts: seq<nat>, groups: seq<seq<Word>>, b: nat)
    requires Grouped(words, perCue, cuts, groups) && IsGroup(words, perCue, cuts[|cuts| - 1], b)
    ensures Grouped(words, perCue, cuts + [b], groups + [words[cuts[|cuts| - 1]..b]])
  {
    var cuts', groups' := cuts + [b], groups + [words[cuts[|cuts| - 1]..b]];
    forall k | 0 <= k < |groups'|
      ensures IsGroup(words, perCue, cuts'[k], cuts'[k + 1]) && groups'[k] == words[cuts'[k]..cuts'[k + 1]]
    {
      if k < |groups| {
        assert IsGroup(words, perCue, cuts[k], cuts[k + 1]);
      }
    }
  }

  /** Word i + 1 joins the group that began at word a: the group is not full, the pause is short,
      the group is not too long in time, and no sentence of two or more words ends there. */
  predicate Joins(words: seq<Word>, perCue: nat, a: nat, i: nat)
    requires a <= i < |words| - 1
  {
    && i + 1 - a < perCue
    && words[i + 1].start - words[i].end < 0.32
    && words[i].end - words[a].start < 2.2
    && (i == a || !EndsSentence(words[i].text))
  }

  /** The groups of words, cut just where the next word does not join. */
  ghost predicate CutByRules(words: seq<Word>, perCue: nat, cuts: seq<nat>, groups: seq<seq<Word>>) {
    && |cuts| == |groups| + 1 && cuts[0] == 0 && cuts[|groups|] == |words|
    && forall k | 0 <= k < |groups| :: JoinedAll(words, perCue, cuts[k], cuts[k + 1]) && groups[k] == words[cuts[k]..cuts[k + 1]]
  }

  /** In [a, b) every word but the first joins, and the one after it does not. */
  ghost predicate JoinedAll(words: seq<Word>, perCue: nat, a: nat, b: nat) {
    && a < b <= |words|
    && forall i | a <= i < b && i + 1 < |words| :: i + 1 < b <==> Joins(words, perCue, a, i)
  }

  /** Two neighbouring words are in one group exactly when the second joins. */
  lemma GroupsAreCutByRules(words: seq<Word>, perCue: nat, cuts: seq<nat>, groups: seq<seq<Word>>)
    requires AllGrouped(words, perCue, cuts, groups)
    ensures CutByRules(words, perCue, cuts, groups)
  {
    forall k | 0 <= k < |groups| ensures JoinedAll(words, perCue, cuts[k], cuts[k + 1]) {
      var a, b := cuts[k], cuts[k + 1];
      assert IsGroup(words, perCue, a, b);
      forall i | a <= i < b && i + 1 < |words| ensures i + 1 < b <==> Joins(words, perCue, a, i) {
        assert i + 1 < b ==> !Ends(words, perCue, a, i);
      }
    }
  }

  /** And no other cuts are. */
  lemma {:induction false} CutsUnique(words: seq<Word>, perCue: nat, cuts: seq<nat>, groups: seq<seq<Word>>,
      cuts': seq<nat>, groups': seq<seq<Word>>, k: nat)
    requires CutByRules(words, perCue, cuts, groups) && CutByRules(words, perCue, cuts', groups')
    requires k < |cuts|
    ensures k < |cuts'| && cuts[k] == cuts'[k]
  {
    if k > 0 {
      CutsUnique(words, perCue, cuts, groups, cuts', groups', k - 1);
      var a, b := cuts[k - 1], cuts[k];
      assert JoinedAll(words, perCue, a, b);
      assert k - 1 < |groups'|;
      var b' := cuts'[k];
      assert JoinedAll(words, perCue, a, b');
      assert b < |words| ==> !Joins(words, perCue, a, b - 1);
      assert b' < |words| ==> !Joins(words, perCue, a, b' - 1);
    }
  }

  function Flatten(groups: seq<seq<Word>>): seq<Word> {
    if groups == [] then [] else Flatten(groups[..|groups| - 1]) + groups[|groups| - 1]
  }

  /** The groups are a partition of the words in order, with one to eight words each. */
  lemma {:induction false} GroupsPartition(words: seq<Word>, wordsPerCue: int, cuts: seq<nat>, groups: seq<seq<Word>>)
    requires Grouped(words, Clamp(wordsPerCue), cuts, groups)
    ensures cuts[|groups|] <= |words| && Flatten(groups) == words[..cuts[|groups|]]
    ensures forall k | 0 <= k < |groups| :: 1 <= |groups[k]| <= Clamp(wordsPerCue) <= 8
    decreases |groups|
  {
    if groups != [] {
      var n := |groups| - 1;
      var a, b := cuts[n], cuts[n + 1];
      assert IsGroup(words, Clamp(wordsPerCue), a, b);
      assert Grouped(words, Clamp(wordsPerCue), cuts[..n + 1], groups[..n]);
      GroupsPartition(words, wordsPerCue, cuts[..n + 1], groups[..n]);
      assert words[..b] == words[..a] + words[a..b];
      if b - a > Clamp(wordsPerCue) {
        assert Ends(words, Clamp(wordsPerCue), a, a + Clamp(wordsPerCue) - 1);
      }
      forall k | 0 <= k < |groups| ensures 1 <= |groups[k]| <= Clamp(wordsPerCue) {
        if k < n { assert groups[..n][k] == groups[k]; }
      }
    }
  }

  // ----- cues

  datatype Cue = Cue(start: real, end: real, words: seq<Word>)

  /** The words of a group that are not blank, cut to the cue. */
  function Normalize(group: seq<Word>, clipStart: real, start: real, end: real): seq<Word> {
    if group == [] then []
    else
      var w := group[|group| - 1];
      Normalize(group[..|group| - 1], clipStart, start, end)
        + if Strip(w.text) == "" then [] else [Word(Strip(w.text), Max(start, w.start - clipStart), Min(end, w.end - clipStart))]
  }

  function CueStart(group: seq<Word>, clipStart: real): real
    requires group != []
  {
    Max(0.0, group[0].start - clipStart)
  }

  function CueEnd(group: seq<Word>, clipStart: real, clipEnd: real): real
    requires group != []
  {
    Min(clipEnd - clipStart, group[|group| - 1].end - clipStart)
  }

  function CueOf(group: seq<Word>, clipStart: real, clipEnd: real): Cue
    requires group != []
  {
    var start, end := CueStart(group, clipStart), CueEnd(group, clipStart, clipEnd);
    Cue(start, end, Normalize(group, clipStart, start, end))
  }

  /** A cue lasts from its first word to its last, as far as the clip shows them, and in it every
      word has its own time, as far as the cue lasts. */
  ghost predicate Spans(cue: Cue, group: seq<Word>, clipStart: real, clipEnd: real) {
    && group != []
    && cue.start == Max(0.0, group[0].start - clipStart)
    && cue.end == Min(clipEnd - clipStart, group[|group| - 1].end - clipStart)
    && forall w | w in cue.words :: exists v ::
      && v in group && w.text == Strip(v.text)
      && w.start == Max(cue.start, v.start - clipStart) && w.end == Min(cue.end, v.end - clipStart)
  }

  lemma CueSpans(group: seq<Word>, clipStart: real, clipEnd: real)
    requires group != []
    ensures Spans(CueOf(group, clipStart, clipEnd), group, clipStart, clipEnd)
  {
    NormalizedTimes(group, clipStart, CueStart(group, clipStart), CueEnd(group, clipStart, clipEnd));
  }

  lemma {:induction false} NormalizedTimes(group: seq<Word>, clipStart: real, start: real, end: real)
    ensures forall w | w in Normalize(group, clipStart, start, end) :: exists v ::
      && v in group && w.text == Strip(v.text)
      && w.start == Max(start, v.start - clipStart) && w.end == Min(end, v.end - clipStart)
    decreases |group|
  {
    if group != [] {
      NormalizedTimes(group[..|group| - 1], clipStart, start, end);
      assert group[|group| - 1] in group;
    }
  }

  /** Every cue is the cue of one of the groups. */
  lemma {:induction false} CuesSpan(groups: seq<seq<Word>>, clipStart: real, clipEnd: real)
    requires NonEmpty(groups)
    ensures forall c | c in CuesOf(groups, clipStart, clipEnd) :: exists g :: g in groups && Spans(c, g, clipStart, clipEnd)
    decreases |groups|
  {
    if groups != [] {
      var last := groups[|groups| - 1];
      CuesSpan(groups[..|groups| - 1], clipStart, clipEnd);
      CueSpans(last, clipStart, clipEnd);
      assert last in groups;
    }
  }

  ghost predicate NonEmpty(groups: seq<seq<Word>>) {
    forall k | 0 <= k < |groups| :: groups[k] != []
  }

  function CuesOf(groups: seq<seq<Word>>, clipStart: real, clipEnd: real): seq<Cue>
    requires NonEmpty(groups)
  {
    if groups == [] then []
    else
      var cue := CueOf(groups[|groups| - 1], clipStart, clipEnd);
      CuesOf(groups[..|groups| - 1], clipStart, clipEnd) + if cue.words != [] && cue.end > cue.start then [cue] else []
  }

  method MakeCues(groups: seq<seq<Word>>, clipStart: real, clipEnd: real) returns (cues: seq<Cue>)
    requires NonEmpty(groups)
    ensures cues == CuesOf(groups, clipStart, clipEnd)
  {
    cues := [];
    var i := 0;
    while i < |groups|
      invariant 0 <= i <= |groups| && cues == CuesOf(groups[..i], clipStart, clipEnd)
    {
      assert groups[..i + 1][..i] == groups[..i];
      var cue := CueOf(groups[i], clipStart, clipEnd);
      if cue.words != [] && cue.end > cue.start {
        cues := cues + [cue];
      }
      i := i + 1;
    }
    assert groups[..i] == groups;
  }

  /** Inside the clip, with words that each take time inside the cue. */
  ghost predicate WellTimed(cue: Cue, clipStart: real, clipEnd: real) {
    && 0.0 <= cue.start < cue.end <= clipEnd - clipStart
    && cue.words != []
    && Inside(cue.words, cue.start, cue.end)
  }

  ghost predicate GoodGroup(group: seq<Word>, clipStart: real, clipEnd: real) {
    group != [] && InOrder(group) && Positive(group) && AllShown(group, clipStart, clipEnd)
  }

  /** No group is dropped for its timing. */
  lemma CueTakesTime(group: seq<Word>, clipStart: real, clipEnd: real)
    requires GoodGroup(group, clipStart, clipEnd) && clipStart < clipEnd
    ensures 0.0 <= CueStart(group, clipStart) < CueEnd(group, clipStart, clipEnd) <= clipEnd - clipStart
    ensures forall i | 0 <= i < |group| ::
      Max(CueStart(group, clipStart), group[i].start - clipStart) < Min(CueEnd(group, clipStart, clipEnd), group[i].end - clipStart)
  {
    var last := |group| - 1;
    assert Shown(group[0], clipStart, clipEnd) && Shown(group[last], clipStart, clipEnd);
    assert group[last].start < group[last].end;
    forall i | 0 <= i < |group|
      ensures Max(CueStart(group, clipStart), group[i].start - clipStart) < Min(CueEnd(group, clipStart, clipEnd), group[i].end - clipStart)
    {
      assert Shown(group[i], clipStart, clipEnd) && group[i].start < group[i].end;
      assert i > 0 ==> group[0].start <= group[i].start;
      assert i < last ==> group[i].start <= group[last].start;
    }
  }

  ghost predicate Inside(words: seq<Word>, start: real, end: real) {
    forall i | 0 <= i < |words| :: start <= words[i].start < words[i].end <= end
  }

  lemma {:induction false} NormalizedInside(group: seq<Word>, clipStart: real, start: real, end: real)
    requires forall i | 0 <= i < |group| :: Max(start, group[i].start - clipStart) < Min(end, group[i].end - clipStart)
    ensures Inside(Normalize(group, clipStart, start, end), start, end)
    decreases |group|
  {
    if group != [] {
      var front := group[..|group| - 1];
      assert forall i | 0 <= i < |front| :: front[i] == group[i];
      NormalizedInside(front, clipStart, start, end);
    }
  }

  function Texts(words: seq<Word>): seq<string> {
    if words == [] then [] else Texts(words[..|words| - 1]) + [words[|words| - 1].text]
  }

  function NonBlank(words: seq<Word>): seq<string> {
    if words == [] then []
    else NonBlank(words[..|words| - 1]) + if Strip(words[|words| - 1].text) == "" then [] else [Strip(words[|words| - 1].text)]
  }

  lemma {:induction false} NormalizedTexts(group: seq<Word>, clipStart: real, start: real, end: real)
    ensures Texts(Normalize(group, clipStart, start, end)) == NonBlank(group)
    decreases |group|
  {
    if group != [] {
      var front, w := group[..|group| - 1], group[|group| - 1];
      NormalizedTexts(front, clipStart, start, end);
      var r := Normalize(front, clipStart, start, end);
      if Strip(w.text) != "" {
        var v := Word(Strip(w.text), Max(start, w.start - clipStart), Min(end, w.end - clipStart));
        assert (r + [v])[..|r|] == r;
      } else {
        assert r + [] == r;
      }
    }
  }

  lemma {:induction false} NonBlankConcat(a: seq<Word>, b: seq<Word>)
    ensures NonBlank(a + b) == NonBlank(a) + NonBlank(b)
    decreases |b|
  {
    if b == [] {
      assert a + b == a;
    } else {
      assert (a + b)[..|a + b| - 1] == a + b[..|b| - 1];
      NonBlankConcat(a, b[..|b| - 1]);
    }
  }

  function CueTexts(cues: seq<Cue>): seq<string> {
    if cues == [] then [] else CueTexts(cues[..|cues| - 1]) + Texts(cues[|cues| - 1].words)
  }

  ghost predicate GoodGroups(groups: seq<seq<Word>>, clipStart: real, clipEnd: real) {
    forall k | 0 <= k < |groups| :: GoodGroup(groups[k], clipStart, clipEnd)
  }

  lemma CuesStep(groups: seq<seq<Word>>, clipStart: real, clipEnd: real)
    requires GoodGroups(groups, clipStart, clipEnd) && clipStart < clipEnd && groups != []
    ensures NonEmpty(groups) && NonEmpty(groups[..|groups| - 1])
    ensures var cue := CueOf(groups[|groups| - 1], clipStart, clipEnd);
      CuesOf(groups, clipStart, clipEnd) == CuesOf(groups[..|groups| - 1], clipStart, clipEnd) + if cue.words != [] then [cue] else []
  {
    CueKeepsWords(groups[|groups| - 1], clipStart, clipEnd);
  }

  /** Together the cues say exactly the words that are not blank. */
  lemma {:induction false} CuesKeepWords(groups: seq<seq<Word>>, clipStart: real, clipEnd: real)
    requires GoodGroups(groups, clipStart, clipEnd) && clipStart < clipEnd
    ensures NonEmpty(groups) && CueTexts(CuesOf(groups, clipStart, clipEnd)) == NonBlank(Flatten(groups))
    decreases |groups|
  {
    if groups != [] {
      var front, group := groups[..|groups| - 1], groups[|groups| - 1];
      CuesKeepWords(front, clipStart, clipEnd);
      CuesStep(groups, clipStart, clipEnd);
      OneMoreCue(CuesOf(front, clipStart, clipEnd), CueOf(group, clipStart, clipEnd));
      CueKeepsWords(group, clipStart, clipEnd);
      NonBlankConcat(Flatten(front), group);
    }
  }

  /** And every cue is well timed. */
  lemma {:induction false} CuesAreTimed(groups: seq<seq<Word>>, clipStart: real, clipEnd: real)
    requires GoodGroups(groups, clipStart, clipEnd) && clipStart < clipEnd
    ensures NonEmpty(groups)
    ensures forall c | c in CuesOf(groups, clipStart, clipEnd) :: WellTimed(c, clipStart, clipEnd)
    decreases |groups|
  {
    if groups != [] {
      var front, cue := CuesOf(groups[..|groups| - 1], clipStart, clipEnd), CueOf(groups[|groups| - 1], clipStart, clipEnd);
      CuesAreTimed(groups[..|groups| - 1], clipStart, clipEnd);
      CuesStep(groups, clipStart, clipEnd);
      CueKeepsWords(groups[|groups| - 1], clipStart, clipEnd);
      forall c | c in CuesOf(groups, clipStart, clipEnd) ensures WellTimed(c, clipStart, clipEnd) {
        assert c in front || (c == cue && cue.words != []);
      }
    }
  }

  lemma OneMoreCue(cues: seq<Cue>, cue: Cue)
    ensures CueTexts(cues + if cue.words != [] then [cue] else []) == CueTexts(cues) + Texts(cue.words)
  {
    if cue.words == [] {
      assert cues + [] == cues;
    } else {
      assert (cues + [cue])[..|cues|] == cues;
    }
  }

  lemma CueKeepsWords(group: seq<Word>, clipStart: real, clipEnd: real)
    requires GoodGroup(group, clipStart, clipEnd) && clipStart < clipEnd
    ensures var cue := CueOf(group, clipStart, clipEnd);
      && Texts(cue.words) == NonBlank(group) && cue.end > cue.start
      && (cue.words != [] ==> WellTimed(cue, clipStart, clipEnd))
  {
    CueTakesTime(group, clipStart, clipEnd);
    NormalizedInside(group, clipStart, CueStart(group, clipStart), CueEnd(group, clipStart, clipEnd));
    NormalizedTexts(group, clipStart, CueStart(group, clipStart), CueEnd(group, clipStart, clipEnd));
  }

  lemma GroupsAreGood(words: seq<Word>, perCue: nat, cuts: seq<nat>, groups: seq<seq<Word>>, clipStart: real,
      clipEnd: real)
    requires Grouped(words, perCue, cuts, groups)
    requires InOrder(words) && Positive(words) && AllShown(words, clipStart, clipEnd)
    ensures GoodGroups(groups, clipStart, clipEnd)
  {
    forall k | 0 <= k < |groups| ensures GoodGroup(groups[k], clipStart, clipEnd) {
      var g := groups[k];
      assert IsGroup(words, perCue, cuts[k], cuts[k + 1]);
      forall i | 0 <= i < |g| ensures g[i] == words[cuts[k] + i] {
      }
    }
  }

  lemma GroupsNotEmpty(words: seq<Word>, perCue: nat, cuts: seq<nat>, groups: seq<seq<Word>>)
    requires Grouped(words, perCue, cuts, groups)
    ensures NonEmpty(groups)
  {
    forall k | 0 <= k < |groups| ensures groups[k] != [] {
      assert IsGroup(words, perCue, cuts[k], cuts[k + 1]);
    }
  }

  /** `group_words`: for words in order that take time and are shown in the clip, nothing that
      can be read is lost, repeated or reordered. */
  method GroupWords(words: seq<Word>, clipStart: real, clipEnd: real, wordsPerCue: int)
    returns (cues: seq<Cue>, ghost groups: seq<seq<Word>>, ghost cuts: seq<nat>)
    ensures CutByRules(words, Clamp(wordsPerCue), cuts, groups)
    ensures Flatten(groups) == words
    ensures forall k | 0 <= k < |groups| :: 1 <= |groups[k]| <= 8
    ensures cues == CuesOf(groups, clipStart, clipEnd)
    ensures forall c | c in cues :: exists g :: g in groups && Spans(c, g, clipStart, clipEnd)
    ensures clipStart < clipEnd && InOrder(words) && Positive(words) && AllShown(words, clipStart, clipEnd) ==>
      CueTexts(cues) == NonBlank(words) && forall c | c in cues :: WellTimed(c, clipStart, clipEnd)
  {
    var gs := Groups(words, Clamp(wordsPerCue));
    groups := gs;
    cuts :| AllGrouped(words, Clamp(wordsPerCue), cuts, groups);
    GroupsAreCutByRules(words, Clamp(wordsPerCue), cuts, groups);
    GroupsPartition(words, wordsPerCue, cuts, groups);
    assert words[..|words|] == words;
    GroupsNotEmpty(words, Clamp(wordsPerCue), cuts, groups);
    cues := MakeCues(gs, clipStart, clipEnd);
    CuesSpan(groups, clipStart, clipEnd);
    if clipStart < clipEnd && InOrder(words) && Positive(words) && AllShown(words, clipStart, clipEnd) {
      GroupsAreGood(words, Clamp(wordsPerCue), cuts, groups, clipStart, clipEnd);
      CuesKeepWords(groups, clipStart, clipEnd);
      CuesAreTimed(groups, clipStart, clipEnd);
    }
  }

  /** From transcript to cues of one clip: every word that the clip shows and that can be read
      is in exactly one cue, in order, at a time inside the clip. */
  method CaptionClip(segments: seq<Segment>, clipStart: real, clipEnd: real, wordsPerCue: int)
    returns (cues: seq<Cue>, ghost words: seq<Word>, ghost groups: seq<seq<Word>>, ghost cuts: seq<nat>)
    requires clipStart < clipEnd && forall w | w in AllWords(segments) :: w.start < w.end
    ensures multiset(words) == multiset(AllWords(segments)) && InOrder(words)
    ensures forall w: Word :: TiedWith(ByStart, w, words) == TiedWith(ByStart, w, AllWords(segments))
    ensures CutByRules(ShownWords(words, clipStart, clipEnd), Clamp(wordsPerCue), cuts, groups)
    ensures forall c | c in cues :: exists g :: g in groups && Spans(c, g, clipStart, clipEnd)
    ensures CueTexts(cues) == NonBlank(ShownWords(words, clipStart, clipEnd))
    ensures forall c | c in cues :: WellTimed(c, clipStart, clipEnd)
  {
    var all := TranscriptWords(segments);
    words := all;
    forall i | 0 <= i < |words| ensures words[i].start < words[i].end {
      assert words[i] in multiset(words);
      assert words[i] in AllWords(segments);
    }
    ShownKeepsOrder(words, clipStart, clipEnd);
    ShownAreShown(words, clipStart, clipEnd);
    var shown := ShownWords(all, clipStart, clipEnd);
    cues, groups, cuts := GroupWords(shown, clipStart, clipEnd, wordsPerCue);
  }
}
