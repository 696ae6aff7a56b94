/** Harmonic-series detection: how many of the selected notes (after the first, the
    dominant one) sit within 0.05 of a whole multiple, at least the second, of the dominant
    note's frequency. */
module Harmonics {
  import opened JavaLang
  import opened NoteNames

  /** How far a frequency ratio may sit from a whole multiple. */
  const Tolerance: real := 0.05

  /** `ratio` lies within the tolerance of the whole multiple `m`. */
  predicate NearMultiple(ratio: real, m: int)
  {
    Abs(ratio - m as real) < Tolerance
  }

  /** `hz` is within the tolerance of `m` times `f0`, measured as a ratio. */
  predicate NearMultipleOf(hz: real, f0: real, m: int)
    requires f0 != 0.0
  {
    NearMultiple(hz / f0, m)
  }

  /** `hz` is a harmonic (second or higher) of `f0`: the ratio rounded with `Math.round` is
      at least 2 and within the tolerance. A zero `f0` gives an infinite or undefined ratio,
      which Java's comparisons reject, so nothing is a harmonic of it. */
  predicate IsHarmonic(hz: real, f0: real)
  {
    f0 != 0.0 && Round(hz / f0) >= 2 && NearMultiple(hz / f0, Round(hz / f0))
  }

  /** Rounding is only a way to find the one candidate multiple: `hz` is a harmonic of `f0`
      exactly when the ratio is within the tolerance of SOME whole multiple of at least 2. */
  lemma HarmonicIffNearSomeMultiple(hz: real, f0: real)
    requires f0 != 0.0
    ensures IsHarmonic(hz, f0) <==> exists m: int :: m >= 2 && NearMultipleOf(hz, f0, m)
  {
    var ratio := hz / f0;
    if exists m: int :: m >= 2 && NearMultipleOf(hz, f0, m) {
      var m: int :| m >= 2 && NearMultipleOf(hz, f0, m);
      RoundUnique(ratio, m);
    }
    if IsHarmonic(hz, f0) {
      assert NearMultipleOf(hz, f0, Round(ratio));
    }
  }

  /** Scaling every frequency by the same non-zero factor keeps harmonics harmonics. */
  lemma HarmonicScaleInvariant(hz: real, f0: real, k: real)
    requires k != 0.0
    ensures IsHarmonic(k * hz, k * f0) <==> IsHarmonic(hz, f0)
  {
    if f0 != 0.0 {
      var r := hz / f0;
      assert r * f0 == hz;
      assert (k * f0) * r == k * hz;
      assert (k * hz) / (k * f0) == r;
    }
  }

  /** How many notes after the first are harmonics of the first. */
  function HarmonicCount(notes: seq<NotePeak>): (count: nat)
    requires notes != []
    ensures count <= |notes| - 1
  {
    if |notes| == 1 then 0
    else
      var k := |notes| - 1;
      HarmonicCount(notes[..k]) + if IsHarmonic(notes[k].hz, notes[0].hz) then 1 else 0
  }

  /** The harmonics label: "--" without notes, "Yes (n)" for two or more harmonics, and
      "No" otherwise. */
  function HarmonicsText(notes: Option<seq<NotePeak>>): (text: string)
  {
    if notes.None? || notes.value == [] then "--"
    else
      var count := HarmonicCount(notes.value);
      if count >= 2 then "Yes (" + IntToDecimal(count) + ")" else "No"
  }

  /** The label reads "Yes" exactly when at least two of the other notes are harmonics, and
      then it carries that count; it reads "--" exactly when there are no notes. */
  lemma HarmonicsTextMeaning(notes: Option<seq<NotePeak>>)
    ensures HarmonicsText(notes) == "--" <==> notes.None? || notes.value == []
    ensures notes.Some? && notes.value != [] && HarmonicCount(notes.value) >= 2 ==>
              var t := HarmonicsText(notes);
              |t| > 6 && t[..5] == "Yes (" && t[|t| - 1] == ')'
              && ParseDecimal(t[5..|t| - 1]) == Some(HarmonicCount(notes.value))
    ensures notes.Some? && notes.value != [] && HarmonicCount(notes.value) < 2 ==>
              HarmonicsText(notes) == "No"
  {
    if notes.Some? && notes.value != [] && HarmonicCount(notes.value) >= 2 {
      var count := HarmonicCount(notes.value);
      var digits := IntToDecimal(count);
      var t := "Yes (" + digits + ")";
      ParseIntToDecimal(count);
      assert t[5..|t| - 1] == digits;
    }
  }

  /** The positions after the first whose notes are harmonics of the first note. */
  ghost function HarmonicPositions(notes: seq<NotePeak>): set<int>
    requires notes != []
  {
    set i | 1 <= i < |notes| && IsHarmonic(notes[i].hz, notes[0].hz)
  }

  /** The count is the number of positions after the first that hold a harmonic of the
      first note: position 0 is never counted, and every later position is counted once. */
  lemma {:induction false} CountIsHarmonicPositions(notes: seq<NotePeak>)
    requires notes != []
    ensures HarmonicCount(notes) == |HarmonicPositions(notes)|
  {
    if |notes| == 1 {
      assert HarmonicPositions(notes) == {};
    } else {
      var k := |notes| - 1;
      var prefix := notes[..k];
      CountIsHarmonicPositions(prefix);
      var before := HarmonicPositions(prefix);
      assert k !in before;
      if IsHarmonic(notes[k].hz, notes[0].hz) {
        assert HarmonicPositions(notes) == before + {k};
      } else {
        assert HarmonicPositions(notes) == before;
      }
    }
  }

  /** A note is never a harmonic of itself (the ratio 1 rounds to 1), so comparing the first
      note with itself could not have changed the count either. */
  lemma NoteIsNotItsOwnHarmonic(f0: real)
    ensures !IsHarmonic(f0, f0)
  {
    if f0 != 0.0 {
      assert f0 / f0 == 1.0;
      RoundUnique(1.0, 1);
    }
  }

  /** A dominant note at 110 Hz with notes at 220, 330 and 445 Hz (ratios 2, 3 and about
      4.045) shows three harmonics. */
  lemma ThreeHarmonicsExample()
    ensures HarmonicsText(Some([NotePeak("A2", 45, 110.0, 0.0), NotePeak("A3", 57, 220.0, 0.0),
                                NotePeak("E4", 64, 330.0, 0.0), NotePeak("A4", 69, 445.0, 0.0)]))
            == "Yes (3)"
  {
    var notes := [NotePeak("A2", 45, 110.0, 0.0), NotePeak("A3", 57, 220.0, 0.0),
                  NotePeak("E4", 64, 330.0, 0.0), NotePeak("A4", 69, 445.0, 0.0)];
    assert IsHarmonic(220.0, 110.0) by { RoundUnique(220.0 / 110.0, 2); }
    assert IsHarmonic(330.0, 110.0) by { RoundUnique(330.0 / 110.0, 3); }
    assert IsHarmonic(445.0, 110.0) by { RoundUnique(445.0 / 110.0, 4); }
    assert notes[..3][..2] == notes[..2];
    assert notes[..2][..1] == notes[..1];
    assert HarmonicCount(notes[..2]) == 1;
    assert HarmonicCount(notes[..3]) == 2;
    assert HarmonicCount(notes) == 3;
  }

  /** `estimateHarmonics`: the same label, counted with the source's loop. */
  method EstimateHarmonics(notes: Option<seq<NotePeak>>) returns (text: string)
    ensures text == HarmonicsText(notes)
  {
    if notes.None? || notes.value == [] {
      return "--";
    }
    var ns := notes.value;
    var f0 := ns[0].hz;
    var count := 0;
    var i := 1;
    while i < |ns|
      invariant 1 <= i <= |ns|
      invariant count == HarmonicCount(ns[..i])
    {
      assert ns[..i + 1][..i] == ns[..i];
      var n := ns[i];
      if f0 != 0.0 {
        var ratio := n.hz / f0;
        var nearest := Round(ratio);
        if nearest >= 2 && Abs(ratio - nearest as real) < Tolerance {
          count := count + 1;
        }
      }
      i := i + 1;
    }
    assert ns[..|ns|] == ns;
    text := if count >= 2 then "Yes (" + IntToDecimal(count) + ")" else "No";
  }
}
