/** The camera path: each frame moves a little towards its target, and not at all when it is
    close enough. One axis at a time, before the printed values are rounded. */
module CompositionKeyframes {
  import opened Common

  datatype Keyframe = Keyframe(x: real, y: real)

  const MAX_STEP := 0.08
  const DEAD_ZONE := 0.03
  const GAIN := 0.35

  function Clamp(low: real, high: real, x: real): real {
    var capped := if x <= high then x else high;
    if capped >= low then capped else low
  }

  /** Where the camera is after one more sample. */
  function Move(current: real, target: real, size: real): real {
    var delta := target - current;
    var pull := if Abs(delta) < size * DEAD_ZONE then 0.0 else delta;
    current + Clamp(-(size * MAX_STEP), size * MAX_STEP, pull * GAIN)
  }

  /** Where the camera is after n samples; it starts in the middle. */
  function Position(targets: seq<real>, size: real, n: nat): real
    requires n <= |targets|
  {
    if n == 0 then size / 2.0 else Move(Position(targets, size, n - 1), targets[n - 1], size)
  }

  method SmoothKeyframes(focusX: seq<real>, focusY: seq<real>, width: real, height: real)
    returns (values: seq<Keyframe>)
    requires |focusX| == |focusY|
    ensures |values| == |focusX|
    ensures forall i | 0 <= i < |values| ::
      values[i] == Keyframe(Clamp(0.0, width, Position(focusX, width, i + 1)), Clamp(0.0, height, Position(focusY, height, i + 1)))
  {
    values := [];
    var currentX, currentY := width / 2.0, height / 2.0;
    var i := 0;
    while i < |focusX|
      invariant 0 <= i <= |focusX| && |values| == i
      invariant currentX == Position(focusX, width, i) && currentY == Position(focusY, height, i)
      invariant forall k | 0 <= k < i ::
        values[k] == Keyframe(Clamp(0.0, width, Position(focusX, width, k + 1)), Clamp(0.0, height, Position(focusY, height, k + 1)))
    {
      currentX := Towards(currentX, focusX[i], width);
      currentY := Towards(currentY, focusY[i], height);
      values := values + [Keyframe(Clamp(0.0, width, currentX), Clamp(0.0, height, currentY))];
      i := i + 1;
    }
  }

  method Towards(current0: real, target: real, size: real) returns (current: real)
    ensures current == Move(current0, target, size)
  {
    var maxStep := size * MAX_STEP;
    var delta := target - current0;
    if Abs(delta) < size * DEAD_ZONE {
      delta := 0.0;
    }
    current := current0 + Clamp(-maxStep, maxStep, delta * GAIN);
  }

  // ----- one step

  /** A step is at most 8 % of the frame, never passes its target, and stands still exactly
      inside the dead zone. */
  lemma StepIsGentle(current: real, target: real, size: real)
    requires size > 0.0
    ensures Abs(Move(current, target, size) - current) <= size * 0.08
    ensures Between(Move(current, target, size), current, target)
    ensures Move(current, target, size) == current <==> Abs(target - current) < size * 0.03
    ensures Abs(target - current) >= size * 0.03 ==>
      Abs(Move(current, target, size) - current) == Min(size * 0.08, Abs(target - current) * 0.35)
  {
  }

  /** What a step leaves of the distance, outside the dead zone. */
  lemma StepShrinks(current: real, target: real, size: real)
    requires size > 0.0 && Abs(target - current) >= size * DEAD_ZONE
    ensures var gap, gap' := Abs(target - current), Abs(target - Move(current, target, size));
      gap' == gap - size * MAX_STEP || gap' == gap * (1.0 - GAIN)
    ensures Abs(target - Move(current, target, size)) < Abs(target - current)
  {
  }

  // ----- the whole path

  /** The camera starts in the middle, and every sample moves it once. */
  lemma PathSteps(targets: seq<real>, size: real, n: nat)
    requires n <= |targets|
    ensures n == 0 ==> Position(targets, size, n) == size / 2.0
    ensures n > 0 ==> Position(targets, size, n) == Move(Position(targets, size, n - 1), targets[n - 1], size)
  {
  }

  ghost predicate InFrame(targets: seq<real>, size: real) {
    forall i | 0 <= i < |targets| :: 0.0 <= targets[i] <= size
  }

  /** With all targets in the frame the camera never leaves it: the clamp does nothing. */
  lemma {:induction false} PathStaysInFrame(targets: seq<real>, size: real, n: nat)
    requires size > 0.0 && InFrame(targets, size) && n <= |targets|
    ensures 0.0 <= Position(targets, size, n) <= size
    ensures Clamp(0.0, size, Position(targets, size, n)) == Position(targets, size, n)
  {
    if n > 0 {
      PathStaysInFrame(targets, size, n - 1);
      StepIsGentle(Position(targets, size, n - 1), targets[n - 1], size);
    }
  }

  /** The largest distance left after k steps towards one target, as a share of the frame. */
  function Bound(k: nat): real {
    if k == 0 then 1.0
    else
      var b := Bound(k - 1);
      if b - MAX_STEP >= b * (1.0 - GAIN) then b - MAX_STEP else b * (1.0 - GAIN)
  }

  lemma BoundsShrink(k: nat)
    ensures Bound(k + 1) >= Bound(k) - MAX_STEP && Bound(k + 1) >= Bound(k) * (1.0 - GAIN)
  {
  }

  lemma LinearPhase()
    ensures Bound(10) == 0.2
  {
    assert Bound(5) == 0.6;
  }

  lemma FifteenSteps()
    ensures Bound(15) < DEAD_ZONE
  {
    LinearPhase();
    assert Bound(11) == 0.13;
    assert Bound(12) == 0.0845;
    assert Bound(13) == 0.054925;
    assert Bound(14) == 0.03570125;
  }

  ghost predicate SameTarget(targets: seq<real>, from: nat, to: nat, target: real) {
    to <= |targets| && forall i | from <= i < to :: targets[i] == target
  }

  predicate Settled(position: real, target: real, size: real) {
    Abs(target - position) < size * DEAD_ZONE
  }

  /** In the dead zone, or at most the share b of the frame away. */
  predicate Within(position: real, target: real, size: real, b: real) {
    Settled(position, target, size) || Abs(target - position) <= b * size
  }

  lemma {:induction false} GapShrinks(targets: seq<real>, size: real, from: nat, k: nat, target: real)
    requires size > 0.0 && InFrame(targets, size) && SameTarget(targets, from, from + k, target) && 0.0 <= target <= size
    ensures Within(Position(targets, size, from + k), target, size, Bound(k))
  {
    if k == 0 {
      PathStaysInFrame(targets, size, from);
    } else {
      GapShrinks(targets, size, from, k - 1, target);
      BoundsShrink(k - 1);
      GapStep(Position(targets, size, from + k - 1), target, size, Bound(k - 1), Bound(k));
    }
  }

  lemma GapStep(position: real, target: real, size: real, b: real, b': real)
    requires size > 0.0 && b' >= b - MAX_STEP && b' >= b * (1.0 - GAIN)
    requires Within(position, target, size, b)
    ensures Within(Move(position, target, size), target, size, b')
  {
    StepIsGentle(position, target, size);
    if !Settled(position, target, size) {
      StepShrinks(position, target, size);
      Scale(b - MAX_STEP, b', size);
      Scale(b * (1.0 - GAIN), b', size);
      Spread(b, size);
    }
  }

  lemma Spread(b: real, size: real)
    ensures (b - MAX_STEP) * size == b * size - size * MAX_STEP
    ensures (b * (1.0 - GAIN)) * size == (b * size) * (1.0 - GAIN)
  {
  }

  lemma Scale(a: real, b: real, size: real)
    requires a <= b && size > 0.0
    ensures a * size <= b * size
  {
  }

  /** Fifteen samples with one target bring the camera into the dead zone. */
  lemma SettlesWithin15(targets: seq<real>, size: real, from: nat, target: real)
    requires size > 0.0 && InFrame(targets, size) && SameTarget(targets, from, from + 15, target)
    ensures Settled(Position(targets, size, from + 15), target, size)
  {
    assert targets[from] == target;
    GapShrinks(targets, size, from, 15, target);
    FifteenSteps();
    Scale(Bound(15), DEAD_ZONE, size);
  }

  /** And there it stays, for as long as the target does. */
  lemma {:induction false} StaysSettled(targets: seq<real>, size: real, from: nat, k: nat, target: real)
    requires size > 0.0 && SameTarget(targets, from, from + k, target)
    requires from <= |targets| && Settled(Position(targets, size, from), target, size)
    ensures Position(targets, size, from + k) == Position(targets, size, from)
  {
    if k > 0 {
      StaysSettled(targets, size, from, k - 1, target);
      StepIsGentle(Position(targets, size, from + k - 1), target, size);
    }
  }
}
