/** Playing-gesture classification from the recent history of the main note's frequency:
    the history is turned into cents relative to its first value, then classified as a
    slide, a bend, vibrato or stable from its overall change, the number of direction
    changes and the mean step size. */
module Gesture {
  import opened JavaLang

  /** The classifier needs at least this many frequencies. */
  const MinHistory: nat := 6

  datatype Shape = NoGesture | SlideUp | SlideDown | BendUp | BendDown | Vibrato | Stable

  /** The text shown on the gesture label. */
  function ShapeText(g: Shape): (text: string)
    ensures |text| >= 2
  {
    match g
    case NoGesture => "--"
    case SlideUp => "Slide Up"
    case SlideDown => "Slide Down"
    case BendUp => "Bend Up"
    case BendDown => "Bend Down"
    case Vibrato => "Vibrato"
    case Stable => "Stable"
  }

  /** Distinct gestures are shown with distinct texts. */
  lemma ShapeTextInjective(g: Shape, h: Shape)
    requires ShapeText(g) == ShapeText(h)
    ensures g == h
  {
  }

  /** Up and down exchanged: what a trace mirrored about its start classifies as. */
  function Mirror(g: Shape): Shape
  {
    match g
    case SlideUp => SlideDown
    case SlideDown => SlideUp
    case BendUp => BendDown
    case BendDown => BendUp
    case _ => g
  }

  // ------------------------------------------------------------ statistics of a trace

  /** Number of steps `i >= 2` whose direction (`Math.signum` of the difference) differs from
      the previous step's; a step of size zero has its own direction. */
  function SignChanges(c: seq<real>): (n: nat)
  {
    if |c| < 3 then 0
    else
      var k := |c| - 1;
      SignChanges(c[..k]) + if Signum(c[k] - c[k - 1]) != Signum(c[k - 1] - c[k - 2]) then 1 else 0
  }

  /** Sum of the absolute step sizes. */
  function AbsDiffSum(c: seq<real>): (s: real)
    ensures s >= 0.0
  {
    if |c| < 2 then 0.0
    else
      var k := |c| - 1;
      AbsDiffSum(c[..k]) + Abs(c[k] - c[k - 1])
  }

  /** The decision rules, from the overall change in cents, the direction changes and the
      mean step size. */
  function Decide(total: real, signChanges: nat, avgStep: real): (g: Shape)
  {
    var range := Abs(total);
    if range > 150.0 && signChanges < 2 then (if total > 0.0 then SlideUp else SlideDown)
    else if range > 25.0 && range <= 150.0 && signChanges < 3 then (if total > 0.0 then BendUp else BendDown)
    else if signChanges > 6 && avgStep < 30.0 then Vibrato
    else Stable
  }

  /** Mean absolute step size of a trace of at least two values. */
  function AverageStep(c: seq<real>): real
    requires |c| >= 2
  {
    AbsDiffSum(c) / (|c| - 1) as real
  }

  /** The classification of a cents trace of at least two values. */
  function Classify(c: seq<real>): (g: Shape)
    requires |c| >= 2
  {
    Decide(c[|c| - 1] - c[0], SignChanges(c), AverageStep(c))
  }

  /** Each frequency in cents relative to `base`. */
  function CentsTrace(history: seq<real>, base: real, cents: (real, real) -> real): (c: seq<real>)
    ensures |c| == |history|
    ensures forall i :: 0 <= i < |c| ==> c[i] == cents(history[i], base)
  {
    if history == [] then []
    else CentsTrace(history[..|history| - 1], base, cents) + [cents(history[|history| - 1], base)]
  }

  /** `estimateGesture` on a pitch history: too short a history or a non-positive first
      frequency shows no gesture; otherwise the cents trace relative to the first value is
      classified. */
  function GestureOf(history: seq<real>, cents: (real, real) -> real): (g: Shape)
    ensures g == NoGesture <==> |history| < MinHistory || history[0] <= 0.0
  {
    if |history| < MinHistory || history[0] <= 0.0 then NoGesture
    else Classify(CentsTrace(history, history[0], cents))
  }

  // ------------------------------------------------------------ properties

  /** Only the steps after the first can change direction. */
  lemma {:induction false} SignChangesBound(c: seq<real>)
    requires |c| >= 2
    ensures SignChanges(c) <= |c| - 2
  {
    if |c| >= 3 {
      SignChangesBound(c[..|c| - 1]);
    }
  }

  function Shift(c: seq<real>, d: real): (r: seq<real>)
    ensures |r| == |c| && forall i :: 0 <= i < |c| ==> r[i] == c[i] + d
  {
    if c == [] then [] else Shift(c[..|c| - 1], d) + [c[|c| - 1] + d]
  }

  function Negate(c: seq<real>): (r: seq<real>)
    ensures |r| == |c| && forall i :: 0 <= i < |c| ==> r[i] == -c[i]
  {
    if c == [] then [] else Negate(c[..|c| - 1]) + [-c[|c| - 1]]
  }

  lemma {:induction false} ShiftKeepsSteps(c: seq<real>, d: real)
    ensures SignChanges(Shift(c, d)) == SignChanges(c)
    ensures AbsDiffSum(Shift(c, d)) == AbsDiffSum(c)
  {
    if |c| >= 2 {
      var k := |c| - 1;
      assert Shift(c, d)[..k] == Shift(c[..k], d);
      ShiftKeepsSteps(c[..k], d);
    }
  }

  lemma {:induction false} NegateKeepsStepCounts(c: seq<real>)
    ensures SignChanges(Negate(c)) == SignChanges(c)
    ensures AbsDiffSum(Negate(c)) == AbsDiffSum(c)
  {
    if |c| >= 2 {
      var k := |c| - 1;
      assert Negate(c)[..k] == Negate(c[..k]);
      NegateKeepsStepCounts(c[..k]);
    }
  }

  /** The classification depends only on the shape of the trace: moving every value by the
      same number of cents changes nothing (so the choice of reference does not matter). */
  lemma ClassifyShiftInvariant(c: seq<real>, d: real)
    requires |c| >= 2
    ensures Classify(Shift(c, d)) == Classify(c)
  {
    ShiftKeepsSteps(c, d);
    assert AverageStep(Shift(c, d)) == AverageStep(c);
  }

  /** A trace mirrored about its start is classified with up and down exchanged. */
  lemma ClassifyMirror(c: seq<real>)
    requires |c| >= 2
    ensures Classify(Negate(c)) == Mirror(Classify(c))
  {
    var n := Negate(c);
    var total, changes, step := c[|c| - 1] - c[0], SignChanges(c), AverageStep(c);
    NegatedStatistics(c);
    var nTotal, nChanges, nStep := n[|n| - 1] - n[0], SignChanges(n), AverageStep(n);
    assert nTotal == -total && nChanges == changes && nStep == step;
    calc {
      Classify(n);
      Decide(nTotal, nChanges, nStep);
      Decide(-total, changes, step);
      { DecideMirror(total, changes, step); }
      Mirror(Decide(total, changes, step));
      Mirror(Classify(c));
    }
  }

  lemma NegatedStatistics(c: seq<real>)
    requires |c| >= 2
    ensures var n := Negate(c);
            n[|n| - 1] - n[0] == -(c[|c| - 1] - c[0])
            && SignChanges(n) == SignChanges(c) && AverageStep(n) == AverageStep(c)
  {
    NegateKeepsStepCounts(c);
  }

  lemma DecideMirror(total: real, signChanges: nat, avgStep: real)
    ensures Decide(-total, signChanges, avgStep) == Mirror(Decide(total, signChanges, avgStep))
  {
  }

  /** A strictly rising trace never changes direction. */
  lemma {:induction false} RisingHasNoSignChanges(c: seq<real>)
    requires forall i :: 0 < i < |c| ==> c[i - 1] < c[i]
    ensures SignChanges(c) == 0
  {
    if |c| >= 3 {
      RisingHasNoSignChanges(c[..|c| - 1]);
    }
  }

  /** A strictly rising trace that climbs more than 150 cents is an upward slide; one that
      climbs more than 25 and at most 150 cents is an upward bend. */
  lemma RisingTraceIsSlideOrBendUp(c: seq<real>)
    requires |c| >= 2 && forall i :: 0 < i < |c| ==> c[i - 1] < c[i]
    ensures c[|c| - 1] - c[0] > 150.0 ==> Classify(c) == SlideUp
    ensures 25.0 < c[|c| - 1] - c[0] <= 150.0 ==> Classify(c) == BendUp
  {
    RisingHasNoSignChanges(c);
  }

  /** A trace that does not move at all is stable. */
  lemma {:induction false} FlatTraceIsStable(c: seq<real>)
    requires |c| >= 2 && forall i :: 0 <= i < |c| ==> c[i] == c[0]
    ensures Classify(c) == Stable
  {
    FlatHasNoSignChanges(c);
  }

  lemma {:induction false} FlatHasNoSignChanges(c: seq<real>)
    requires forall i :: 0 <= i < |c| ==> c[i] == c[0]
    ensures SignChanges(c) == 0
  {
    if |c| >= 3 {
      FlatHasNoSignChanges(c[..|c| - 1]);
    }
  }

  /** A trace that swings 10 cents up and down around its start is vibrato: nine steps of
      10 cents, eight direction changes. */
  lemma SwingIsVibrato()
    ensures Classify([0.0, 10.0, 0.0, 10.0, 0.0, 10.0, 0.0, 10.0, 0.0, 10.0]) == Vibrato
  {
    var c := [0.0, 10.0, 0.0, 10.0, 0.0, 10.0, 0.0, 10.0, 0.0, 10.0];
    assert forall k :: 3 <= k <= 10 ==> c[..k][..k - 1] == c[..k - 1];
    assert SignChanges(c[..3]) == 1;
    assert SignChanges(c[..4]) == 2;
    assert SignChanges(c[..5]) == 3;
    assert SignChanges(c[..6]) == 4;
    assert SignChanges(c[..7]) == 5;
    assert SignChanges(c[..8]) == 6;
    assert SignChanges(c[..9]) == 7;
    assert c[..10] == c;
    assert AbsDiffSum(c[..2]) == 10.0;
    assert AbsDiffSum(c[..3]) == 20.0;
    assert AbsDiffSum(c[..4]) == 30.0;
    assert AbsDiffSum(c[..5]) == 40.0;
    assert AbsDiffSum(c[..6]) == 50.0;
    assert AbsDiffSum(c[..7]) == 60.0;
    assert AbsDiffSum(c[..8]) == 70.0;
    assert AbsDiffSum(c[..9]) == 80.0;
  }

  // ------------------------------------------------------------ the method

  /** One step of the scan over a trace: the sums over the first `i + 1` values extend those
      over the first `i`. */
  lemma ScanStep(c: seq<real>, i: nat)
    requires 1 <= i < |c|
    ensures AbsDiffSum(c[..i + 1]) == AbsDiffSum(c[..i]) + Abs(c[i] - c[i - 1])
    ensures SignChanges(c[..i + 1]) ==
              SignChanges(c[..i]) + if i > 1 && Signum(c[i] - c[i - 1]) != Signum(c[i - 1] - c[i - 2]) then 1 else 0
  {
    assert c[..i + 1][..i] == c[..i];
  }

  /** The first loop of `estimateGesture`: each frequency in cents from the first one. */
  method CentsArray(history: seq<real>, base: real, cents: (real, real) -> real) returns (c: array<real>)
    ensures fresh(c) && c[..] == CentsTrace(history, base, cents)
  {
    c := new real[|history|];
    var i := 0;
    while i < |history|
      invariant 0 <= i <= |history|
      invariant forall j :: 0 <= j < i ==> c[j] == cents(history[j], base)
    {
      c[i] := cents(history[i], base);
      i := i + 1;
    }
  }

  /** The second loop of `estimateGesture`: the sum of the absolute steps and the number of
      direction changes of the trace. */
  method ScanSteps(c: array<real>) returns (absDiffSum: real, signChanges: nat)
    requires c.Length >= 1
    ensures absDiffSum == AbsDiffSum(c[..]) && signChanges == SignChanges(c[..])
  {
    absDiffSum := 0.0;
    signChanges := 0;
    var prevDiff := 0.0;
    var i := 1;
    while i < c.Length
      invariant 1 <= i <= c.Length
      invariant absDiffSum == AbsDiffSum(c[..i])
      invariant signChanges == SignChanges(c[..i])
      invariant i >= 2 ==> prevDiff == c[i - 1] - c[i - 2]
    {
      ScanStep(c[..], i);
      assert c[..][..i + 1] == c[..i + 1] && c[..][..i] == c[..i];
      var diff := c[i] - c[i - 1];
      absDiffSum := absDiffSum + Abs(diff);
      if i > 1 && Signum(diff) != Signum(prevDiff) {
        signChanges := signChanges + 1;
      }
      prevDiff := diff;
      i := i + 1;
    }
    assert c[..c.Length] == c[..];
  }

  /** `estimateGesture`: the same classification, computed with the source's loops. */
  method EstimateGesture(history: seq<real>, cents: (real, real) -> real) returns (g: Shape)
    ensures g == GestureOf(history, cents)
  {
    if |history| < MinHistory {
      return NoGesture;
    }
    var base := history[0];
    if base <= 0.0 {
      return NoGesture;
    }
    var c := CentsArray(history, base, cents);
    var total := c[c.Length - 1] - c[0];
    var absDiffSum, signChanges := ScanSteps(c);
    g := Decide(total, signChanges, absDiffSum / (c.Length - 1) as real);
  }
}
