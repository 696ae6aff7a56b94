/** Pitch-class names and "name + octave" note labels, as the analysis screen prints them
    (a note label is the pitch-class name followed by the octave `midi / 12 - 1`, with
    Java's truncating division). */
module NoteNames {
  import opened JavaLang

  /** The logarithmic conversions the controller computes with `Math.log`, `Math.pow` and
      `Math.round`; they are parameters of this model, not definitions.
      - `hzToMidi(hz, a4)`: `(int) Math.round(69 + 12 * log2(hz / a4))`
      - `midiToHz(midi, a4)`: `a4 * 2^((midi - 69) / 12)`
      - `cents(hz, ref)`: `1200 * log2(hz / ref)`
      - `shiftByCents(hz, c)`: `hz * 2^(c / 1200)` */
  datatype Conversions = Conversions(
    hzToMidi: (real, real) -> int,
    midiToHz: (int, real) -> real,
    cents: (real, real) -> real,
    shiftByCents: (real, real) -> real)

  /** The one exact identity the analysis relies on: a frequency equal to the reference
      itself is MIDI 69 (log2 of 1 is 0). */
  predicate ReferenceIsA4(conv: Conversions, a4: real)
  {
    conv.hzToMidi(a4, a4) == 69
  }

  /** One selected note of the polyphonic display: its label, MIDI number, the frequency
      of the spectral peak it came from and that peak's magnitude. */
  datatype NotePeak = NotePeak(name: string, midi: int, hz: real, mag: real)

  /** The twelve pitch-class names; index 0 is C. */
  const Names: seq<string> := ["C", "C#", "D", "D#", "E", "F", "F#", "G", "G#", "A", "A#", "B"]

  /** A name is one letter, optionally followed by a sharp sign. */
  predicate NameShape(name: string)
  {
    |name| == 1 || (|name| == 2 && name[1] == '#')
  }

  lemma NamesShapeAndDistinct()
    ensures |Names| == 12
    ensures forall i :: 0 <= i < 12 ==> NameShape(Names[i]) && Names[i][0] != '-'
    ensures forall i, j :: 0 <= i < j < 12 ==> Names[i] != Names[j]
  {
  }

  /** The position of `name` in the table, if it is one of the twelve. */
  function NameIndex(name: string): (r: Option<int>)
    ensures r.Some? ==> 0 <= r.value < 12 && Names[r.value] == name
    ensures r.None? ==> name !in Names
  {
    if name == "C" then Some(0) else if name == "C#" then Some(1)
    else if name == "D" then Some(2) else if name == "D#" then Some(3)
    else if name == "E" then Some(4) else if name == "F" then Some(5)
    else if name == "F#" then Some(6) else if name == "G" then Some(7)
    else if name == "G#" then Some(8) else if name == "A" then Some(9)
    else if name == "A#" then Some(10) else if name == "B" then Some(11)
    else None
  }

  /** `midiToNoteName`: the pitch-class name, chosen with `Math.floorMod` so that negative
      MIDI numbers still land in the table. */
  function MidiToNoteName(midi: int): (name: string)
    ensures name in Names && NameShape(name)
    ensures NameIndex(name) == Some(FloorMod12(midi))
  {
    NamesShapeAndDistinct();
    Names[FloorMod12(midi)]
  }

  /** Two MIDI numbers get the same name exactly when they are a whole number of octaves
      apart. */
  lemma {:induction false} SameNameIffSamePitchClass(a: int, b: int)
    ensures MidiToNoteName(a) == MidiToNoteName(b) <==> (a - b) % 12 == 0
  {
    var pa, pb := FloorMod12(a), FloorMod12(b);
    var qa :| a == 12 * qa + pa;
    var qb :| b == 12 * qb + pb;
    assert a - b == 12 * (qa - qb) + (pa - pb);
    NamesShapeAndDistinct();
    if pa == pb {
      assert (a - b) % 12 == 0;
    } else {
      assert MidiToNoteName(a) != MidiToNoteName(b);
      if pa > pb {
        FloorMod12Unique(a - b, qa - qb, pa - pb);
      } else {
        FloorMod12Unique(a - b, qa - qb - 1, pa - pb + 12);
      }
    }
  }

  /** The octave number printed after the name: `(midi / 12) - 1` in Java. */
  function OctaveNumber(midi: int): (octave: int)
    ensures midi >= 0 ==> octave == midi / 12 - 1
    ensures -12 < midi < 0 ==> octave == -1
  {
    Div12(midi) - 1
  }

  /** The note label `name + octave` shown for the detected pitch and for each of the
      selected polyphonic notes. */
  function NoteLabel(midi: int): (text: string)
    ensures |text| >= 2
    ensures text[..|MidiToNoteName(midi)|] == MidiToNoteName(midi)
  {
    MidiToNoteName(midi) + IntToDecimal(OctaveNumber(midi))
  }

  /** Reads a note label back into its pitch class and octave number. */
  function ParseNoteLabel(text: string): Option<(int, int)>
  {
    var n := if |text| >= 2 && text[1] == '#' then 2 else 1;
    if |text| < n then None
    else
      match NameIndex(text[..n])
      case None => None
      case Some(pc) =>
        match ParseDecimal(text[n..])
        case None => None
        case Some(octave) => Some((pc, octave))
  }

  /** Round trip: a note label determines the pitch class and the printed octave. */
  lemma {:induction false} NoteLabelRoundTrip(midi: int)
    ensures ParseNoteLabel(NoteLabel(midi)) == Some((FloorMod12(midi), OctaveNumber(midi)))
  {
    var name := MidiToNoteName(midi);
    var digits := IntToDecimal(OctaveNumber(midi));
    var text := NoteLabel(midi);
    var n := if |text| >= 2 && text[1] == '#' then 2 else 1;
    assert n == |name| by {
      if |name| == 1 {
        assert text[1] == digits[0];
        assert digits[0] == '-' || IsDigit(digits[0]);
      }
    }
    assert text[..n] == name;
    assert text[n..] == digits;
    ParseIntToDecimal(OctaveNumber(midi));
  }

  /** For MIDI numbers from 0 up, the label names exactly one MIDI number:
      `12 * (octave + 1) + pitch class` gives it back. */
  lemma {:induction false} NoteLabelIdentifiesMidi(midi: int)
    requires midi >= 0
    ensures var p := ParseNoteLabel(NoteLabel(midi));
            p.Some? && 12 * (p.value.1 + 1) + p.value.0 == midi
  {
    NoteLabelRoundTrip(midi);
    FloorMod12Unique(midi, midi / 12, midi % 12);
  }

  /** Below MIDI 0 the truncating octave breaks that: MIDI -1 (the B just below MIDI 0)
      is printed "B-1", the same label as MIDI 11. */
  lemma TruncatedOctaveLabelCollides()
    ensures NoteLabel(-1) == NoteLabel(11) == "B-1"
  {
    FloorMod12Unique(-1, -1, 11);
    FloorMod12Unique(11, 0, 11);
  }
}
