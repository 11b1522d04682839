/** Track ids for the boxes of consecutive frames, and the assignment of speakers to tracks.
    `iou` stands for the overlap ratio of two boxes. */
module SpeakerTracks {
  import opened Common
  import opened CompositionSamples
  import opened Sorting

  const MATCH_OVERLAP := 0.2

  // ----- track ids

  /** The first box of greatest overlap, as `max` picks it. */
  method BestMatch(box: Box, available: seq<Box>, iou: (Box, Box) -> real) returns (best: nat)
    requires available != []
    ensures best == Best(box, available, iou)
  {
    best := 0;
    var i := 1;
    while i < |available|
      invariant 1 <= i <= |available| && best < i
      invariant best == Best(box, available[..i], iou)
    {
      assert available[..i + 1][..i] == available[..i];
      if iou(box, available[i]) > iou(box, available[best]) {
        best := i;
      }
      i := i + 1;
    }
    assert available[..i] == available;
  }

  function Best(box: Box, available: seq<Box>, iou: (Box, Box) -> real): (r: nat)
    requires available != []
    ensures r < |available| && forall j | 0 <= j < |available| :: iou(box, available[j]) <= iou(box, available[r])
    ensures forall j | 0 <= j < r :: iou(box, available[j]) < iou(box, available[r])
  {
    if |available| == 1 then 0
    else
      var r := Best(box, available[..|available| - 1], iou);
      if iou(box, available[|available| - 1]) > iou(box, available[r]) then |available| - 1 else r
  }

  function Without(available: seq<Box>, id: int): (r: seq<Box>)
    ensures forall b | b in r :: b in available && b.trackId != Some(id)
  {
    if available == [] then []
    else if available[0].trackId == Some(id) then Without(available[1..], id)
    else [available[0]] + Without(available[1..], id)
  }

  function RemoveAt(available: seq<Box>, i: nat): seq<Box>
    requires i < |available|
  {
    available[..i] + available[i + 1..]
  }

  predicate HaveIds(boxes: seq<Box>) {
    forall i | 0 <= i < |boxes| :: boxes[i].trackId.Some?
  }

  /** The boxes of a frame with their ids, and the next id nobody has. */
  datatype Tracking = Tracking(boxes: seq<Box>, next: int)

  function Assign(current: seq<Box>, available: seq<Box>, next: int, iou: (Box, Box) -> real): (r: Tracking)
    requires HaveIds(available)
    ensures |r.boxes| == |current| && HaveIds(r.boxes)
    decreases |current|
  {
    if current == [] then Tracking([], next)
    else
      var box, rest := current[0], current[1..];
      if box.trackId.Some? then
        var id := box.trackId.value;
        var more := Assign(rest, Without(available, id), if next >= id + 1 then next else id + 1, iou);
        Tracking([box] + more.boxes, more.next)
      else if available != [] && iou(box, available[Best(box, available, iou)]) >= MATCH_OVERLAP then
        var best := Best(box, available, iou);
        var more := Assign(rest, RemoveAt(available, best), next, iou);
        Tracking([box.(trackId := available[best].trackId)] + more.boxes, more.next)
      else
        var more := Assign(rest, available, next + 1, iou);
        Tracking([box.(trackId := Some(next))] + more.boxes, more.next)
  }

  lemma AssignGiven(box: Box, rest: seq<Box>, available: seq<Box>, next: int, iou: (Box, Box) -> real)
    requires HaveIds(available) && box.trackId.Some?
    ensures var id := box.trackId.value;
      var more := Assign(rest, Without(available, id), if next >= id + 1 then next else id + 1, iou);
      Assign([box] + rest, available, next, iou) == Tracking([box] + more.boxes, more.next)
  {
    assert ([box] + rest)[1..] == rest;
  }

  lemma AssignMatched(box: Box, rest: seq<Box>, available: seq<Box>, next: int, iou: (Box, Box) -> real, best: nat)
    requires HaveIds(available) && box.trackId.None? && available != [] && best == Best(box, available, iou)
    requires iou(box, available[best]) >= MATCH_OVERLAP
    ensures var more := Assign(rest, RemoveAt(available, best), next, iou);
      Assign([box] + rest, available, next, iou) == Tracking([box.(trackId := available[best].trackId)] + more.boxes, more.next)
  {
    assert ([box] + rest)[1..] == rest;
  }

  lemma AssignFresh(box: Box, rest: seq<Box>, available: seq<Box>, next: int, iou: (Box, Box) -> real)
    requires HaveIds(available) && box.trackId.None?
    requires available != [] ==> iou(box, available[Best(box, available, iou)]) < MATCH_OVERLAP
    ensures var more := Assign(rest, available, next + 1, iou);
      Assign([box] + rest, available, next, iou) == Tracking([box.(trackId := Some(next))] + more.boxes, more.next)
  {
    assert ([box] + rest)[1..] == rest;
  }

  /** The body of the loop over a frame's boxes; `rest` are the boxes still to come. */
  method AssignOne(box: Box, available0: seq<Box>, next0: int, iou: (Box, Box) -> real, ghost rest: seq<Box>)
    returns (box': Box, available: seq<Box>, next: int)
    requires HaveIds(available0)
    ensures HaveIds(available)
    ensures var more := Assign(rest, available, next, iou);
      Assign([box] + rest, available0, next0, iou) == Tracking([box'] + more.boxes, more.next)
  {
    box', available, next := box, available0, next0;
    if box.trackId.Some? {
      AssignGiven(box, rest, available, next, iou);
      available := Without(available, box.trackId.value);
      next := if next >= box.trackId.value + 1 then next else box.trackId.value + 1;
      return;
    }
    if available != [] {
      var best := BestMatch(box, available, iou);
      if iou(box, available[best]) >= MATCH_OVERLAP {
        AssignMatched(box, rest, available, next, iou, best);
        box' := box.(trackId := available[best].trackId);
        available := RemoveAt(available, best);
        return;
      }
    }
    AssignFresh(box, rest, available, next, iou);
    box' := box.(trackId := Some(next));
    next := next + 1;
  }

  method AssignFrame(current: seq<Box>, previous: seq<Box>, next0: int, iou: (Box, Box) -> real)
    returns (boxes: seq<Box>, next: int)
    requires HaveIds(previous)
    ensures Tracking(boxes, next) == Assign(current, previous, next0, iou)
  {
    boxes, next := [], next0;
    var available := previous;
    ghost var whole := Assign(current, previous, next0, iou);
    var i := 0;
    assert current[i..] == current;
    while i < |current|
      invariant 0 <= i <= |current| && HaveIds(available)
      invariant boxes + Assign(current[i..], available, next, iou).boxes == whole.boxes
      invariant Assign(current[i..], available, next, iou).next == whole.next
    {
      assert current[i..] == [current[i]] + current[i + 1..];
      ghost var done := boxes;
      var box;
      box, available, next := AssignOne(current[i], available, next, iou, current[i + 1..]);
      boxes := boxes + [box];
      i := i + 1;
      ghost var more := Assign(current[i..], available, next, iou);
      assert done + ([box] + more.boxes) == boxes + more.boxes;
    }
    assert current[i..] == [];
  }

  ghost function Ids(boxes: seq<Box>): set<int> {
    set b | b in boxes && b.trackId.Some? :: b.trackId.value
  }

  lemma InIds(boxes: seq<Box>, i: nat)
    requires i < |boxes| && boxes[i].trackId.Some?
    ensures boxes[i].trackId.value in Ids(boxes)
  {
    assert boxes[i] in boxes;
  }

  ghost predicate Distinct(boxes: seq<Box>) {
    HaveIds(boxes) && forall i, j | 0 <= i < j < |boxes| :: boxes[i].trackId != boxes[j].trackId
  }

  /** Ids that are given come first and differ. A frame without any given id is one such, and so
      is one in which all are given. */
  ghost predicate GivenFirst(current: seq<Box>) {
    forall i, j | 0 <= i < j < |current| && current[j].trackId.Some? ::
      current[i].trackId.Some? && current[i].trackId != current[j].trackId
  }

  function NextAfterBox(box: Box, next: int): int {
    if box.trackId.None? then next + 1
    else if next >= box.trackId.value + 1 then next
    else box.trackId.value + 1
  }

  /** The next id behind boxes of which none takes an id over. */
  function NextAfter(boxes: seq<Box>, next: int): int {
    if boxes == [] then next else NextAfter(boxes[1..], NextAfterBox(boxes[0], next))
  }

  /** The given id of box j differs from the one of box i, or is neither offered to that box
      nor the id it gets when nothing overlaps. */
  ghost predicate Separate(current: seq<Box>, offered: set<int>, next: int, i: nat, j: nat)
    requires i < j < |current| && current[j].trackId.Some?
  {
    if current[i].trackId.Some? then current[i].trackId != current[j].trackId
    else current[j].trackId.value !in offered && current[j].trackId.value != NextAfter(current[..i], next)
  }

  ghost predicate Harmless(current: seq<Box>, offered: set<int>, next: int) {
    forall i, j | 0 <= i < j < |current| && current[j].trackId.Some? :: Separate(current, offered, next, i, j)
  }

  lemma GivenFirstHarmless(current: seq<Box>, offered: set<int>, next: int)
    requires GivenFirst(current)
    ensures Harmless(current, offered, next)
  {
  }

  lemma HarmlessTail(current: seq<Box>, offered: set<int>, left: set<int>, next: int)
    requires current != [] && Harmless(current, offered, next) && left <= offered
    ensures Harmless(current[1..], left, NextAfterBox(current[0], next))
  {
    var rest := current[1..];
    forall i, j | 0 <= i < j < |rest| && rest[j].trackId.Some?
      ensures Separate(rest, left, NextAfterBox(current[0], next), i, j)
    {
      assert current[i + 1] == rest[i] && current[j + 1] == rest[j];
      assert current[..i + 1][1..] == rest[..i];
      assert Separate(current, offered, next, i + 1, j + 1);
    }
  }

  /** What the first box means for the given ids behind it. */
  lemma HarmlessFirst(current: seq<Box>, offered: set<int>, next: int)
    requires current != [] && Harmless(current, offered, next)
    ensures forall id | id in Ids(current[1..]) ::
      if current[0].trackId.Some? then id != current[0].trackId.value else id !in offered && id != next
  {
    forall id | id in Ids(current[1..])
      ensures if current[0].trackId.Some? then id != current[0].trackId.value else id !in offered && id != next
    {
      var b :| b in current[1..] && b.trackId == Some(id);
      var j :| 0 <= j < |current[1..]| && current[1..][j] == b;
      assert current[j + 1] == b;
      assert current[..0] == [];
      assert Separate(current, offered, next, 0, j + 1);
    }
  }

  ghost predicate Avoids(ids: set<int>, low: int, high: int) {
    forall id | id in ids :: id < low || high <= id
  }

  ghost predicate Below(ids: set<int>, next: int) {
    forall id | id in ids :: id < next
  }

  lemma IdsOfCons(box: Box, boxes: seq<Box>)
    requires box.trackId.Some?
    ensures Ids([box] + boxes) == {box.trackId.value} + Ids(boxes)
  {
    forall id | id in {box.trackId.value} + Ids(boxes) ensures id in Ids([box] + boxes) {
      if id == box.trackId.value {
        assert box in [box] + boxes;
      } else {
        var b :| b in boxes && b.trackId == Some(id);
        assert b in [box] + boxes;
      }
    }
  }

  lemma DistinctCons(box: Box, boxes: seq<Box>)
    requires box.trackId.Some? && Distinct(boxes) && box.trackId.value !in Ids(boxes)
    ensures Distinct([box] + boxes)
  {
    forall j | 0 <= j < |boxes| ensures boxes[j].trackId != box.trackId {
      assert boxes[j] in boxes && boxes[j].trackId.Some?;
      assert boxes[j].trackId.value in Ids(boxes);
    }
  }

  lemma {:induction false} WithoutDistinct(available: seq<Box>, id: int)
    requires Distinct(available)
    ensures Distinct(Without(available, id)) && Ids(Without(available, id)) <= Ids(available) - {id}
  {
    if available != [] {
      WithoutDistinct(available[1..], id);
      IdsOfCons(available[0], available[1..]);
      assert [available[0]] + available[1..] == available;
      FirstNotInRest(available);
      if available[0].trackId != Some(id) {
        DistinctCons(available[0], Without(available[1..], id));
        IdsOfCons(available[0], Without(available[1..], id));
      }
    }
  }

  lemma FirstNotInRest(boxes: seq<Box>)
    requires boxes != [] && Distinct(boxes)
    ensures boxes[0].trackId.value !in Ids(boxes[1..])
  {
    forall b | b in boxes[1..] ensures b.trackId != boxes[0].trackId {
      var i :| 0 <= i < |boxes[1..]| && boxes[1..][i] == b;
      assert b == boxes[i + 1];
    }
  }

  lemma RemoveAtDistinct(available: seq<Box>, i: nat)
    requires Distinct(available) && i < |available|
    ensures Distinct(RemoveAt(available, i)) && Ids(RemoveAt(available, i)) <= Ids(available) - {available[i].trackId.value}
  {
    var rest := RemoveAt(available, i);
    forall b | b in rest ensures b in available && b.trackId != available[i].trackId {
      var k :| 0 <= k < |rest| && rest[k] == b;
      assert b == available[if k < i then k else k + 1];
    }
  }

  /** Ids that differ, that nobody of `taken` has, all below the next one; and where none was
      given, an old id or one from `next` on. */
  ghost predicate WellAssigned(current: seq<Box>, left: set<int>, next: int, taken: set<int>, r: Tracking) {
    && |r.boxes| == |current| && Distinct(r.boxes)
    && Ids(r.boxes) !! taken && Below(Ids(r.boxes), r.next) && next <= r.next
    && forall k | 0 <= k < |current| && current[k].trackId.None? ::
         r.boxes[k].trackId.value in left || r.boxes[k].trackId.value >= next
  }

  /** Every box of a frame gets its own id; an id that was neither given nor taken over from
      the previous frame is new. `high` is where `next` would be if no box had taken an id over. */
  lemma {:induction false} AssignDistinct(current: seq<Box>, available: seq<Box>, next: int, high: int,
      iou: (Box, Box) -> real, taken: set<int>)
    requires Distinct(available) && Harmless(current, Ids(available), high)
    requires next <= high && Avoids(Ids(current), next, high)
    requires Ids(available) !! taken && Ids(current) !! taken && Below(taken, next) && Below(Ids(available), next)
    ensures WellAssigned(current, Ids(available), next, taken, Assign(current, available, next, iou))
    decreases |current|, 1
  {
    if current == [] {
      assert Ids([]) == {};
    } else if current[0].trackId.Some? {
      DistinctWhenGiven(current, available, next, high, iou, taken);
    } else if available != [] && iou(current[0], available[Best(current[0], available, iou)]) >= MATCH_OVERLAP {
      DistinctWhenMatched(current, available, next, high, iou, taken, Best(current[0], available, iou));
    } else {
      DistinctWhenFresh(current, available, next, high, iou, taken);
    }
  }

  lemma {:induction false} DistinctWhenGiven(current: seq<Box>, available: seq<Box>, next: int, high: int,
      iou: (Box, Box) -> real, taken: set<int>)
    requires current != [] && current[0].trackId.Some?
    requires Distinct(available) && Harmless(current, Ids(available), high)
    requires next <= high && Avoids(Ids(current), next, high)
    requires Ids(available) !! taken && Ids(current) !! taken && Below(taken, next) && Below(Ids(available), next)
    ensures WellAssigned(current, Ids(available), next, taken, Assign(current, available, next, iou))
    decreases |current|, 0
  {
    var box, rest := current[0], current[1..];
    assert current == [box] + rest;
    IdsOfCons(box, rest);
    var id := box.trackId.value;
    WithoutDistinct(available, id);
    HarmlessFirst(current, Ids(available), high);
    HarmlessTail(current, Ids(available), Ids(Without(available, id)), high);
    var next' := NextAfterBox(box, next);
    AssignDistinct(rest, Without(available, id), next', NextAfterBox(box, high), iou, taken + {id});
    AssignGiven(box, rest, available, next, iou);
    var more := Assign(rest, Without(available, id), next', iou);
    Prepend(box, more, current, Ids(Without(available, id)), Ids(available), next, next', taken);
  }

  lemma {:induction false} DistinctWhenMatched(current: seq<Box>, available: seq<Box>, next: int, high: int,
      iou: (Box, Box) -> real, taken: set<int>, best: nat)
    requires current != [] && current[0].trackId.None?
    requires Distinct(available) && Harmless(current, Ids(available), high)
    requires next <= high && Avoids(Ids(current), next, high)
    requires Ids(available) !! taken && Ids(current) !! taken && Below(taken, next) && Below(Ids(available), next)
    requires available != [] && best == Best(current[0], available, iou) && iou(current[0], available[best]) >= MATCH_OVERLAP
    ensures WellAssigned(current, Ids(available), next, taken, Assign(current, available, next, iou))
    decreases |current|, 0
  {
    var box, rest := current[0], current[1..];
    assert current == [box] + rest;
    assert Ids(rest) <= Ids(current);
    HarmlessFirst(current, Ids(available), high);
    var id := available[best].trackId.value;
    InIds(available, best);
    RemoveAtDistinct(available, best);
    HarmlessTail(current, Ids(available), Ids(RemoveAt(available, best)), high);
    AssignDistinct(rest, RemoveAt(available, best), next, high + 1, iou, taken + {id});
    AssignMatched(box, rest, available, next, iou, best);
    var more := Assign(rest, RemoveAt(available, best), next, iou);
    Prepend(box.(trackId := Some(id)), more, current, Ids(RemoveAt(available, best)), Ids(available), next, next, taken);
  }

  lemma {:induction false} DistinctWhenFresh(current: seq<Box>, available: seq<Box>, next: int, high: int,
      iou: (Box, Box) -> real, taken: set<int>)
    requires current != [] && current[0].trackId.None?
    requires Distinct(available) && Harmless(current, Ids(available), high)
    requires next <= high && Avoids(Ids(current), next, high)
    requires Ids(available) !! taken && Ids(current) !! taken && Below(taken, next) && Below(Ids(available), next)
    requires available != [] ==> iou(current[0], available[Best(current[0], available, iou)]) < MATCH_OVERLAP
    ensures WellAssigned(current, Ids(available), next, taken, Assign(current, available, next, iou))
    decreases |current|, 0
  {
    var box, rest := current[0], current[1..];
    assert current == [box] + rest;
    assert Ids(rest) <= Ids(current);
    HarmlessFirst(current, Ids(available), high);
    HarmlessTail(current, Ids(available), Ids(available), high);
    AssignDistinct(rest, available, next + 1, high + 1, iou, taken + {next});
    AssignFresh(box, rest, available, next, iou);
    var more := Assign(rest, available, next + 1, iou);
    Prepend(box.(trackId := Some(next)), more, current, Ids(available), Ids(available), next, next + 1, taken);
  }

  lemma Prepend(box: Box, rest: Tracking, current: seq<Box>, left: set<int>, offered: set<int>, next: int,
      nextThen: int, taken: set<int>)
    requires box.trackId.Some? && current != []
    requires WellAssigned(current[1..], left, nextThen, taken + {box.trackId.value}, rest)
    requires left <= offered && next <= nextThen
    requires box.trackId.value !in taken && box.trackId.value < rest.next
    requires current[0].trackId.None? ==> box.trackId.value in offered || box.trackId.value >= next
    ensures WellAssigned(current, offered, next, taken, Tracking([box] + rest.boxes, rest.next))
  {
    IdsOfCons(box, rest.boxes);
    DistinctCons(box, rest.boxes);
    forall k | 0 <= k < |current| && current[k].trackId.None?
      ensures var id := ([box] + rest.boxes)[k].trackId.value; id in offered || id >= next
    {
      if k > 0 {
        assert current[1..][k - 1] == current[k];
      }
    }
  }

  lemma {:induction false} GivenKept(current: seq<Box>, available: seq<Box>, next: int, iou: (Box, Box) -> real, k: nat)
    requires HaveIds(available) && k < |current| && current[k].trackId.Some?
    ensures Assign(current, available, next, iou).boxes[k] == current[k]
    decreases |current|
  {
    var box, rest := current[0], current[1..];
    if k > 0 {
      assert current[k] == rest[k - 1];
      if box.trackId.Some? {
        GivenKept(rest, Without(available, box.trackId.value), NextAfterBox(box, next), iou, k - 1);
      } else if available != [] && iou(box, available[Best(box, available, iou)]) >= MATCH_OVERLAP {
        GivenKept(rest, RemoveAt(available, Best(box, available, iou)), next, iou, k - 1);
      } else {
        GivenKept(rest, available, next + 1, iou, k - 1);
      }
    }
  }

  /** Nothing overlaps. */
  ghost function Apart(): (Box, Box) -> real {
    (x, y) => 0.0
  }

  /** Every box overlaps the one with the given id and no other. */
  ghost function OnlyWith(id: int): (Box, Box) -> real {
    (x: Box, y: Box) => if y.trackId == Some(id) then 1.0 else 0.0
  }

  lemma {:induction false} FreshWhenApart(current: seq<Box>, available: seq<Box>, next: int, k: nat)
    requires HaveIds(available) && k < |current| && current[k].trackId.None?
    ensures Assign(current, available, next, Apart()).boxes[k].trackId == Some(NextAfter(current[..k], next))
    decreases |current|
  {
    var box, rest := current[0], current[1..];
    assert current == [box] + rest;
    if k > 0 {
      assert current[..k][1..] == rest[..k - 1] && current[..k][0] == box;
    }
    if box.trackId.Some? {
      AssignGiven(box, rest, available, next, Apart());
      FreshWhenApart(rest, Without(available, box.trackId.value), NextAfterBox(box, next), k - 1);
    } else {
      AssignFresh(box, rest, available, next, Apart());
      if k > 0 { FreshWhenApart(rest, available, next + 1, k - 1); }
    }
  }

  lemma {:induction false} WithoutKeeps(available: seq<Box>, id: int, other: int)
    requires other in Ids(available) && other != id
    ensures other in Ids(Without(available, id))
  {
    var b :| b in available && b.trackId == Some(other);
    WithoutKeepsBox(available, id, b);
  }

  lemma {:induction false} WithoutKeepsBox(available: seq<Box>, id: int, b: Box)
    requires b in available && b.trackId != Some(id)
    ensures b in Without(available, id)
  {
    if b != available[0] {
      WithoutKeepsBox(available[1..], id, b);
    }
  }

  /** The first box without an id takes the only one that is offered to all. */
  lemma {:induction false} TakenWhenOnly(current: seq<Box>, available: seq<Box>, next: int, id: int, i: nat) returns (k: nat)
    requires HaveIds(available) && id in Ids(available) && i < |current| && current[i].trackId.None?
    requires forall j | 0 <= j < i :: current[j].trackId != Some(id)
    ensures k <= i && current[k].trackId.None? && Assign(current, available, next, OnlyWith(id)).boxes[k].trackId == Some(id)
    decreases |current|
  {
    var box, rest := current[0], current[1..];
    if box.trackId.Some? {
      WithoutKeeps(available, box.trackId.value, id);
      k := TakenWhenOnly(rest, Without(available, box.trackId.value), NextAfterBox(box, next), id, i - 1);
      k := k + 1;
    } else {
      var b :| b in available && b.trackId == Some(id);
      var best := Best(box, available, OnlyWith(id));
      assert OnlyWith(id)(box, b) == 1.0;
      assert available[best].trackId == Some(id);
      k := 0;
    }
  }

  /** The ids of a frame differ, whatever overlaps, if and only if the given ids differ and none
      behind a box without an id can be offered or issued to that box. */
  lemma DistinctIffHarmless(current: seq<Box>, available: seq<Box>, next: int)
    requires Distinct(available) && Below(Ids(available), next)
    ensures (forall iou: (Box, Box) -> real :: Distinct(Assign(current, available, next, iou).boxes))
      <==> Harmless(current, Ids(available), next)
  {
    if Harmless(current, Ids(available), next) {
      forall iou: (Box, Box) -> real ensures Distinct(Assign(current, available, next, iou).boxes) {
        AssignDistinct(current, available, next, next, iou, {});
      }
    } else {
      var i, j :| 0 <= i < j < |current| && current[j].trackId.Some? && !Separate(current, Ids(available), next, i, j);
      var iou := ClashFrom(current, available, next, i, j);
    }
  }

  /** Overlaps under which a given id behind another box appears twice. */
  lemma ClashFrom(current: seq<Box>, available: seq<Box>, next: int, i: nat, j: nat) returns (iou: (Box, Box) -> real)
    requires Distinct(available) && i < j < |current| && current[j].trackId.Some?
    requires !Separate(current, Ids(available), next, i, j)
    ensures !Distinct(Assign(current, available, next, iou).boxes)
  {
    var id := current[j].trackId.value;
    if k: nat :| k < j && current[k].trackId == Some(id) {
      iou := Apart();
      GivenKept(current, available, next, iou, k);
      GivenKept(current, available, next, iou, j);
    } else if id in Ids(available) {
      iou := OnlyWith(id);
      var k := TakenWhenOnly(current, available, next, id, i);
      GivenKept(current, available, next, iou, j);
    } else {
      iou := Apart();
      FreshWhenApart(current, available, next, i);
      GivenKept(current, available, next, iou, j);
    }
  }

  /** A single box keeps a given id; without one it takes over the id of the first box of greatest
      overlap, if that is 20 % at least, and is new otherwise. */
  lemma AssignSingle(box: Box, available: seq<Box>, next: int, iou: (Box, Box) -> real, i: nat)
    requires HaveIds(available)
    requires available != [] ==> i < |available|
    requires forall j | 0 <= j < |available| :: iou(box, available[j]) <= iou(box, available[i])
    requires forall j | 0 <= j < |available| && j < i :: iou(box, available[j]) < iou(box, available[i])
    ensures var id := Assign([box], available, next, iou).boxes[0].trackId;
      id == if box.trackId.Some? then box.trackId
            else if available != [] && iou(box, available[i]) >= 0.2 then available[i].trackId
            else Some(next)
  {
    assert [box][1..] == [];
    if available != [] {
      var best := Best(box, available, iou);
      assert iou(box, available[best]) <= iou(box, available[i]) && iou(box, available[i]) <= iou(box, available[best]);
      assert best == i;
    }
  }

  /** New ids are consecutive, and behind a given one the next is at least one higher. */
  lemma {:induction false} NewIdsAreConsecutive(current: seq<Box>, next: int, iou: (Box, Box) -> real, k: nat)
    requires k < |current| && forall i | 0 <= i < |current| :: current[i].trackId.None?
    ensures Assign(current, [], next, iou).boxes[k].trackId == Some(next + k)
    ensures Assign(current, [], next, iou).next == next + |current|
    decreases |current|
  {
    var rest := current[1..];
    if rest == [] {
      assert Assign(rest, [], next + 1, iou) == Tracking([], next + 1);
    } else {
      NewIdsAreConsecutive(rest, next + 1, iou, if k == 0 then 0 else k - 1);
    }
  }

  /** One such frame: the second box comes with the id that the first one takes over. */
  lemma MixedIdsCanClash(a: Box, b: Box, iou: (Box, Box) -> real)
    requires a.trackId.None? && b.trackId == Some(1) && iou(a, b) >= MATCH_OVERLAP
    ensures !Distinct(Assign([a, b], [b], 2, iou).boxes)
  {
    var r := Assign([a, b], [b], 2, iou).boxes;
    assert [a, b][1..] == [b] && RemoveAt([b], 0) == [];
    assert Assign([b], [], 2, iou).boxes == [b] + Assign([], [], 2, iou).boxes;
    assert r[0].trackId == Some(1) && r[1] == b;
  }

  // ----- all frames

  function TrackFrames(frames: seq<seq<Box>>, previous: seq<Box>, next: int, iou: (Box,
      Box) -> real): (r: seq<seq<Box>>)
    requires HaveIds(previous)
    ensures |r| == |frames| && forall f | 0 <= f < |r| :: |r[f]| == |frames[f]| && HaveIds(r[f])
    decreases |frames|
  {
    if frames == [] then []
    else if frames[0] == [] then [[]] + TrackFrames(frames[1..], previous, next, iou)
    else
      var first := Assign(frames[0], previous, next, iou);
      [first.boxes] + TrackFrames(frames[1..], first.boxes, first.next, iou)
  }

  lemma TrackStep(frame: seq<Box>, rest: seq<seq<Box>>, previous: seq<Box>, next: int, iou: (Box, Box) -> real)
    requires HaveIds(previous)
    ensures frame == [] ==>
      TrackFrames([frame] + rest, previous, next, iou) == [[]] + TrackFrames(rest, previous, next, iou)
    ensures frame != [] ==>
      var first := Assign(frame, previous, next, iou);
      TrackFrames([frame] + rest, previous, next, iou) == [first.boxes] + TrackFrames(rest, first.boxes, first.next, iou)
  {
    assert ([frame] + rest)[1..] == rest;
  }

  /** One frame further, with the frames still to come unchanged. */
  lemma TrackMore(done: seq<seq<Box>>, frames: seq<seq<Box>>, i: nat, previous: seq<Box>, next: int, iou: (Box,
      Box) -> real, whole: seq<seq<Box>>)
    requires i < |frames| && HaveIds(previous) && done + TrackFrames(frames[i..], previous, next, iou) == whole
    ensures frames[i] == [] ==> done + [[]] + TrackFrames(frames[i + 1..], previous, next, iou) == whole
    ensures frames[i] != [] ==>
      var first := Assign(frames[i], previous, next, iou);
      done + [first.boxes] + TrackFrames(frames[i + 1..], first.boxes, first.next, iou) == whole
  {
    assert frames[i..] == [frames[i]] + frames[i + 1..];
    TrackStep(frames[i], frames[i + 1..], previous, next, iou);
    if frames[i] == [] {
      Regroup(done, [], TrackFrames(frames[i + 1..], previous, next, iou));
    } else {
      var first := Assign(frames[i], previous, next, iou);
      Regroup(done, first.boxes, TrackFrames(frames[i + 1..], first.boxes, first.next, iou));
    }
  }

  lemma Regroup(done: seq<seq<Box>>, boxes: seq<Box>, more: seq<seq<Box>>)
    ensures done + ([boxes] + more) == (done + [boxes]) + more
  {
  }

  method TrackAll(frames: seq<seq<Box>>, iou: (Box, Box) -> real) returns (tracked: seq<seq<Box>>)
    ensures tracked == TrackFrames(frames, [], 1, iou)
  {
    tracked := [];
    var previous: seq<Box>, next := [], 1;
    ghost var whole := TrackFrames(frames, [], 1, iou);
    var i := 0;
    assert frames[i..] == frames;
    while i < |frames|
      invariant 0 <= i <= |frames| && HaveIds(previous)
      invariant tracked + TrackFrames(frames[i..], previous, next, iou) == whole
    {
      TrackMore(tracked, frames, i, previous, next, iou, whole);
      var boxes: seq<Box> := [];
      if frames[i] != [] {
        boxes, next := AssignFrame(frames[i], previous, next, iou);
        previous := boxes;
      }
      tracked := tracked + [boxes];
      i := i + 1;
    }
    assert frames[i..] == [];
  }

  /** The ids of the last frame before f that showed anybody. */
  ghost function LastIds(tracked: seq<seq<Box>>, before: set<int>, f: nat): set<int>
    requires f <= |tracked|
  {
    if f == 0 then before
    else if tracked[f - 1] != [] then Ids(tracked[f - 1])
    else LastIds(tracked, before, f - 1)
  }

  lemma {:induction false} LastIdsTail(tracked: seq<seq<Box>>, before: set<int>, f: nat)
    requires 0 < f <= |tracked|
    ensures LastIds(tracked, before, f) == LastIds(tracked[1..], if tracked[0] != [] then Ids(tracked[0]) else before, f - 1)
  {
    if f > 1 { LastIdsTail(tracked, before, f - 1); }
  }

  /** An id was never used before, in any frame. */
  ghost predicate NeverUsed(tracked: seq<seq<Box>>, seen: set<int>, f: nat, id: int)
    requires f <= |tracked|
  {
    id !in seen && forall g | 0 <= g < f :: id !in Ids(tracked[g])
  }

  ghost predicate FreshOrContinued(frames: seq<seq<Box>>, tracked: seq<seq<Box>>, before: set<int>, seen: set<int>) {
    && |tracked| == |frames|
    && forall f | 0 <= f < |tracked| ::
      && |tracked[f]| == |frames[f]| && Distinct(tracked[f])
      && forall k | 0 <= k < |frames[f]| && frames[f][k].trackId.None? ::
           var id := tracked[f][k].trackId.value;
           id in LastIds(tracked, before, f) || NeverUsed(tracked, seen, f, id)
  }

  /** Every frame is harmless to the boxes before it, as `DistinctIffHarmless` asks of one. */
  ghost predicate AllHarmless(frames: seq<seq<Box>>, previous: seq<Box>, next: int, iou: (Box, Box) -> real)
    requires HaveIds(previous)
    decreases |frames|
  {
    if frames == [] then true
    else if frames[0] == [] then AllHarmless(frames[1..], previous, next, iou)
    else
      var first := Assign(frames[0], previous, next, iou);
      Harmless(frames[0], Ids(previous), next) && AllHarmless(frames[1..], first.boxes, first.next, iou)
  }

  lemma {:induction false} GivenFirstAllHarmless(frames: seq<seq<Box>>, previous: seq<Box>, next: int, iou: (Box, Box) -> real)
    requires HaveIds(previous) && forall f | 0 <= f < |frames| :: GivenFirst(frames[f])
    ensures AllHarmless(frames, previous, next, iou)
    decreases |frames|
  {
    if frames != [] {
      if frames[0] == [] {
        GivenFirstAllHarmless(frames[1..], previous, next, iou);
      } else {
        var first := Assign(frames[0], previous, next, iou);
        GivenFirstHarmless(frames[0], Ids(previous), next);
        GivenFirstAllHarmless(frames[1..], first.boxes, first.next, iou);
      }
    }
  }

  /** In every frame the ids differ; an id that was not given comes from the last frame that
      showed anybody, or nobody ever had it. */
  lemma {:induction false} TracksSound(frames: seq<seq<Box>>, previous: seq<Box>, next: int, iou: (Box,
      Box) -> real, seen: set<int>)
    requires Distinct(previous) && Ids(previous) <= seen && Below(seen, next)
    requires AllHarmless(frames, previous, next, iou)
    ensures FreshOrContinued(frames, TrackFrames(frames, previous, next, iou), Ids(previous), seen)
    decreases |frames|
  {
    if frames != [] {
      var tracked := TrackFrames(frames, previous, next, iou);
      assert frames[0] == [] ==> Distinct([]);
      if frames[0] == [] {
        assert Ids([]) == {};
        TracksSound(frames[1..], previous, next, iou, seen);
        assert tracked[1..] == TrackFrames(frames[1..], previous, next, iou);
        ExtendFirst(frames, tracked, Ids(previous), Ids(previous), seen, seen);
      } else {
        var first := Assign(frames[0], previous, next, iou);
        AssignDistinct(frames[0], previous, next, next, iou, {});
        assert Below(seen + Ids(first.boxes), first.next);
        TracksSound(frames[1..], first.boxes, first.next, iou, seen + Ids(first.boxes));
        assert tracked[1..] == TrackFrames(frames[1..], first.boxes, first.next, iou);
        ExtendFirst(frames, tracked, Ids(previous), Ids(first.boxes), seen, seen + Ids(first.boxes));
      }
    }
  }

  lemma ExtendFirst(frames: seq<seq<Box>>, tracked: seq<seq<Box>>, before: set<int>, before': set<int>,
      seen: set<int>, seen': set<int>)
    requires frames != [] && |tracked| == |frames| && |tracked[0]| == |frames[0]| && Distinct(tracked[0])
    requires seen' == seen + Ids(tracked[0]) && before' == if tracked[0] != [] then Ids(tracked[0]) else before
    requires forall k | 0 <= k < |frames[0]| && frames[0][k].trackId.None? ::
      tracked[0][k].trackId.value in before || tracked[0][k].trackId.value !in seen
    requires FreshOrContinued(frames[1..], tracked[1..], before', seen')
    ensures FreshOrContinued(frames, tracked, before, seen)
  {
    forall f | 0 <= f < |tracked|
      ensures |tracked[f]| == |frames[f]| && Distinct(tracked[f])
    {
      if f > 0 { assert tracked[f] == tracked[1..][f - 1] && frames[f] == frames[1..][f - 1]; }
    }
    forall f, k | 0 <= f < |tracked| && 0 <= k < |frames[f]| && frames[f][k].trackId.None?
      ensures var id := tracked[f][k].trackId.value;
        id in LastIds(tracked, before, f) || NeverUsed(tracked, seen, f, id)
    {
      var id := tracked[f][k].trackId.value;
      if f > 0 {
        assert tracked[f] == tracked[1..][f - 1] && frames[f] == frames[1..][f - 1];
        LastIdsTail(tracked, before, f);
        if NeverUsed(tracked[1..], seen', f - 1, id) {
          forall g | 0 <= g < f ensures id !in Ids(tracked[g]) {
            if g > 0 { assert tracked[g] == tracked[1..][g - 1]; }
          }
        }
      }
    }
  }
}
