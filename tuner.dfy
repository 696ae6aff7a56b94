/** The guitar tuner: the detected pitch is compared with one of the six strings of standard
    tuning, either the nearest one in cents ("Auto" mode) or the one the player picked. */
module Tuner {
  import opened JavaLang
  import opened NoteNames

  /** One open string: its label and MIDI number. */
  datatype StringSpec = StringSpec(name: string, midi: int)

  /** Standard tuning, low string first. */
  const StandardStrings: seq<StringSpec> :=
    [StringSpec("E2", 40), StringSpec("A2", 45), StringSpec("D3", 50),
     StringSpec("G3", 55), StringSpec("B3", 59), StringSpec("E4", 64)]

  /** Readings below this pitch-detector confidence are not shown. */
  const ConfidenceGate: real := 0.75

  /** Beyond this many cents from every string, "Auto" mode does not snap to any. */
  const SnapLimit: real := 500.0

  /** The mode the tuner starts in: pick the nearest string. */
  const AutoMode: string := "Auto"

  /** What the tuner shows: nothing ("--" and an idle needle) or a target string with the
      offset of the pitch from it in cents. */
  datatype TunerReading = Idle | Reading(target: string, cents: real)

  /** The open string's frequency for the reference `a4`. */
  function StringHz(s: StringSpec, a4: real, conv: Conversions): real
  {
    conv.midiToHz(s.midi, a4)
  }

  /** Offset of `pitch` from string `s`, in cents. */
  function CentsFrom(pitch: real, s: StringSpec, a4: real, conv: Conversions): real
  {
    conv.cents(pitch, StringHz(s, a4, conv))
  }

  /** Every string is labelled with its note label (pitch class and octave). */
  lemma StringNamesAreNoteLabels()
    ensures forall i :: 0 <= i < |StandardStrings| ==>
              StandardStrings[i].name == NoteLabel(StandardStrings[i].midi)
  {
    forall i | 0 <= i < |StandardStrings|
      ensures StandardStrings[i].name == NoteLabel(StandardStrings[i].midi)
    {
      StringLabel(i);
    }
  }

  lemma StringLabel(i: nat)
    requires i < |StandardStrings|
    ensures StandardStrings[i].name == NoteLabel(StandardStrings[i].midi)
  {
    if i == 0 {
      FloorMod12Unique(40, 3, 4);
      assert IntToDecimal(2) == "2";
    } else if i == 1 {
      FloorMod12Unique(45, 3, 9);
      assert IntToDecimal(2) == "2";
    } else if i == 2 {
      FloorMod12Unique(50, 4, 2);
      assert IntToDecimal(3) == "3";
    } else if i == 3 {
      FloorMod12Unique(55, 4, 7);
      assert IntToDecimal(3) == "3";
    } else if i == 4 {
      FloorMod12Unique(59, 4, 11);
      assert IntToDecimal(3) == "3";
    } else {
      FloorMod12Unique(64, 5, 4);
      assert IntToDecimal(4) == "4";
    }
  }

  /** The strings rise strictly in pitch, and no two share a label. */
  lemma StandardStringsOrdered()
    ensures forall i, j :: 0 <= i < j < |StandardStrings| ==>
              StandardStrings[i].midi < StandardStrings[j].midi
              && StandardStrings[i].name != StandardStrings[j].name
  {
  }

  // ------------------------------------------------------------ nearest string

  /** Index of the first string among the first `n` with the smallest absolute offset. */
  function Nearest(pitch: real, a4: real, conv: Conversions, n: nat): (best: nat)
    requires 1 <= n <= |StandardStrings|
    ensures best < n
    ensures forall j :: 0 <= j < n ==>
              Abs(CentsFrom(pitch, StandardStrings[best], a4, conv))
              <= Abs(CentsFrom(pitch, StandardStrings[j], a4, conv))
    ensures forall j :: 0 <= j < best ==>
              Abs(CentsFrom(pitch, StandardStrings[j], a4, conv))
              > Abs(CentsFrom(pitch, StandardStrings[best], a4, conv))
  {
    if n == 1 then 0
    else
      var b := Nearest(pitch, a4, conv, n - 1);
      if Abs(CentsFrom(pitch, StandardStrings[n - 1], a4, conv))
         < Abs(CentsFrom(pitch, StandardStrings[b], a4, conv))
      then n - 1 else b
  }

  /** The first string carrying the label `mode`, if any. */
  function Named(mode: string, n: nat): (found: Option<nat>)
    requires n <= |StandardStrings|
    ensures found.Some? ==> found.value < n && StandardStrings[found.value].name == mode
    ensures found.None? ==> forall j :: 0 <= j < n ==> StandardStrings[j].name != mode
  {
    if n == 0 then None
    else
      var f := Named(mode, n - 1);
      if f.None? && StandardStrings[n - 1].name == mode then Some(n - 1) else f
  }

  /** The string the tuner compares against, if any. */
  function Target(pitch: real, mode: string, a4: real, conv: Conversions): Option<nat>
  {
    if mode == AutoMode then
      var b := Nearest(pitch, a4, conv, |StandardStrings|);
      if Abs(CentsFrom(pitch, StandardStrings[b], a4, conv)) > SnapLimit then None else Some(b)
    else Named(mode, |StandardStrings|)
  }

  /** `updateTuner`: a non-positive pitch or a confidence below the gate shows nothing; so
      does a mode that names no string, or an "Auto" pitch more than 500 cents from every
      string; otherwise the target string and the offset from it. */
  function TunerOf(pitch: real, confidence: real, mode: string, a4: real, conv: Conversions): (r: TunerReading)
  {
    if pitch <= 0.0 || confidence < ConfidenceGate then Idle
    else
      match Target(pitch, mode, a4, conv)
      case None => Idle
      case Some(i) => Reading(StandardStrings[i].name, CentsFrom(pitch, StandardStrings[i], a4, conv))
  }

  /** What a reading means: it appears only for a positive, confident pitch; its offset is
      measured from the named string; in "Auto" mode that string is the nearest (the lowest
      of equally near ones) and within 500 cents, and any other mode shows exactly the string
      it names. */
  lemma TunerReadingMeaning(pitch: real, confidence: real, mode: string, a4: real, conv: Conversions)
    ensures var r := TunerOf(pitch, confidence, mode, a4, conv);
            r.Reading? ==>
              pitch > 0.0 && confidence >= ConfidenceGate
              && exists i :: 0 <= i < |StandardStrings| && StandardStrings[i].name == r.target
                             && r.cents == CentsFrom(pitch, StandardStrings[i], a4, conv)
                             && (mode == AutoMode ==>
                                   Abs(r.cents) <= SnapLimit
                                   && forall j :: 0 <= j < |StandardStrings| ==>
                                        Abs(r.cents) <= Abs(CentsFrom(pitch, StandardStrings[j], a4, conv)))
                             && (mode != AutoMode ==> r.target == mode)
  {
  }

  /** When a reading is missing: a weak or absent pitch, an "Auto" pitch far from every
      string, or a mode naming no string. */
  lemma TunerIdleMeaning(pitch: real, confidence: real, mode: string, a4: real, conv: Conversions)
    ensures TunerOf(pitch, confidence, mode, a4, conv).Idle? <==>
              pitch <= 0.0 || confidence < ConfidenceGate
              || (mode == AutoMode && forall j :: 0 <= j < |StandardStrings| ==>
                    Abs(CentsFrom(pitch, StandardStrings[j], a4, conv)) > SnapLimit)
              || (mode != AutoMode && forall j :: 0 <= j < |StandardStrings| ==> StandardStrings[j].name != mode)
  {
    if pitch > 0.0 && confidence >= ConfidenceGate && mode == AutoMode {
      var b := Nearest(pitch, a4, conv, |StandardStrings|);
      if Abs(CentsFrom(pitch, StandardStrings[b], a4, conv)) <= SnapLimit {
        assert !(Abs(CentsFrom(pitch, StandardStrings[b], a4, conv)) > SnapLimit);
      }
    }
  }

  /** Every string label is a mode that always targets that string. */
  lemma FixedModeTargetsItsString(i: nat, pitch: real, a4: real, conv: Conversions)
    requires i < |StandardStrings|
    ensures Target(pitch, StandardStrings[i].name, a4, conv) == Some(i)
  {
    StandardStringsOrdered();
    var f := Named(StandardStrings[i].name, |StandardStrings|);
    assert StandardStrings[i].name != AutoMode;
  }

  // ------------------------------------------------------------ the method

  /** `updateTuner`: the same reading, found with the source's loops. */
  method UpdateTuner(pitch: real, confidence: real, mode: string, a4: real, conv: Conversions)
    returns (r: TunerReading)
    ensures r == TunerOf(pitch, confidence, mode, a4, conv)
  {
    if pitch <= 0.0 || confidence < ConfidenceGate {
      return Idle;
    }
    var target: Option<nat> := None;
    if mode == AutoMode {
      var bestAbsCents := Abs(CentsFrom(pitch, StandardStrings[0], a4, conv));
      target := Some(0);
      var i := 1;
      while i < |StandardStrings|
        invariant 1 <= i <= |StandardStrings|
        invariant target == Some(Nearest(pitch, a4, conv, i))
        invariant bestAbsCents == Abs(CentsFrom(pitch, StandardStrings[target.value], a4, conv))
      {
        var ac := Abs(CentsFrom(pitch, StandardStrings[i], a4, conv));
        if ac < bestAbsCents {
          bestAbsCents := ac;
          target := Some(i);
        }
        i := i + 1;
      }
      if bestAbsCents > SnapLimit {
        target := None;
      }
    } else {
      var i := 0;
      while i < |StandardStrings|
        invariant 0 <= i <= |StandardStrings|
        invariant Named(mode, i).None?
      {
        if StandardStrings[i].name == mode {
          target := Some(i);
          break;
        }
        i := i + 1;
      }
      assert target == Named(mode, |StandardStrings|) by {
        if target.Some? {
          var i := target.value;
          assert Named(mode, i + 1) == Some(i);
          NamedStable(mode, i + 1, |StandardStrings|);
        }
      }
    }
    match target
    case None => r := Idle;
    case Some(i) => r := Reading(StandardStrings[i].name, CentsFrom(pitch, StandardStrings[i], a4, conv));
  }

  /** Once a name has been found among the first `m` strings, looking further changes nothing. */
  lemma {:induction false} NamedStable(mode: string, m: nat, n: nat)
    requires m <= n <= |StandardStrings| && Named(mode, m).Some?
    ensures Named(mode, n) == Named(mode, m)
  {
    if n > m {
      NamedStable(mode, m, n - 1);
    }
  }
}
