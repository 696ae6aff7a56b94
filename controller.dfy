/** The analysis screen's controller state: the bounded chroma and main-pitch histories, the
    calibration session, the A4 reference and the tuner mode, with the handlers that update
    them once per audio frame, per detected pitch and per button press. */
module Analysis {
  import opened JavaLang
  import opened NoteNames
  import opened Chroma
  import opened ChordRecognizer
  import opened NoteSelector
  import opened Gesture
  import opened Harmonics
  import opened Tuner
  import opened Calibration
  import Sorting

  /** How many chroma frames are averaged. */
  const ChromaWindow: nat := 8

  /** How many main-note frequencies the gesture classifier looks back over. */
  const PitchHistoryLimit: nat := 50

  /** How many pitch classes the polyphonic display lists. */
  const PolyphonyNotes: nat := 6

  const DefaultA4: real := 440.0
  const MinA4: real := 400.0
  const MaxA4: real := 500.0

  // ------------------------------------------------------------ bounded histories

  /** The last `max` items of `s` (all of them when there are at most `max`). */
  function Window<T>(s: seq<T>, max: nat): (w: seq<T>)
    ensures |w| == if |s| <= max then |s| else max
  {
    if |s| <= max then s else s[|s| - max..]
  }

  /** `pushChroma` keeps a first-in first-out window: it holds at most `max` frames, the new
      frame is the last one (when `max` is positive), and the frames kept are the newest ones
      in arrival order, so the oldest are the first to go. */
  lemma WindowIsFifo<T>(h: seq<T>, x: T, max: nat)
    ensures var w := Window(h + [x], max);
            |w| <= max && (max > 0 ==> w[|w| - 1] == x)
    ensures var w := Window(h + [x], max);
            forall i :: 0 <= i < |w| ==> w[i] == (h + [x])[|h| + 1 - |w| + i]
    ensures |h| < max ==> Window(h + [x], max) == h + [x]
  {
  }

  /** `updatePitchHistory`: a non-positive frequency (such as the -1 "no peak" sentinel) is
      ignored; otherwise the oldest entry is dropped once 50 are held, and the new one
      appended. */
  function PitchHistoryAfter(h: seq<real>, hz: real): (r: seq<real>)
  {
    if hz <= 0.0 then h
    else (if |h| >= PitchHistoryLimit then h[1..] else h) + [hz]
  }

  /** The pitch history stays within 50 positive frequencies, the new frequency is the last
      one, and every other entry is an older one, in order. */
  lemma PitchHistoryIsBoundedFifo(h: seq<real>, hz: real)
    requires |h| <= PitchHistoryLimit && forall i :: 0 <= i < |h| ==> h[i] > 0.0
    ensures var r := PitchHistoryAfter(h, hz);
            |r| <= PitchHistoryLimit && (forall i :: 0 <= i < |r| ==> r[i] > 0.0)
    ensures hz <= 0.0 ==> PitchHistoryAfter(h, hz) == h
    ensures hz > 0.0 ==>
              var r := PitchHistoryAfter(h, hz);
              r[|r| - 1] == hz && r[..|r| - 1] == h[|h| + 1 - |r|..]
  {
    if hz > 0.0 {
      if |h| >= PitchHistoryLimit {
        FullHistoryShifts(h, hz);
        var r := PitchHistoryAfter(h, hz);
        assert r[..|r| - 1] == h[1..];
      } else {
        var r := PitchHistoryAfter(h, hz);
        assert r == h + [hz];
        assert r[..|r| - 1] == h == h[0..];
        forall i | 0 <= i < |r| ensures r[i] > 0.0 {
          if i < |h| { assert r[i] == h[i]; }
        }
      }
    }
  }

  lemma FullHistoryShifts(h: seq<real>, hz: real)
    requires |h| == PitchHistoryLimit && forall i :: 0 <= i < |h| ==> h[i] > 0.0
    requires hz > 0.0
    ensures var r := PitchHistoryAfter(h, hz);
            r == h[1..] + [hz] && |r| == PitchHistoryLimit
    ensures var r := PitchHistoryAfter(h, hz);
            forall i :: 0 <= i < |r| ==> r[i] > 0.0
  {
    var r := PitchHistoryAfter(h, hz);
    assert r == h[1..] + [hz];
    forall i | 0 <= i < |r| ensures r[i] > 0.0 {
      if i < |r| - 1 { assert r[i] == h[i + 1]; }
    }
  }

  // ------------------------------------------------------------ the A4 field

  /** What `Double.parseDouble` makes of the trimmed A4 text, when it parses at all. */
  datatype ParsedDouble = Finite(value: real) | NaN | Infinite(positive: bool)

  /** Java's `<` on a double and a finite constant: false whenever NaN is involved. */
  predicate JavaLess(v: ParsedDouble, c: real)
  {
    match v
    case Finite(x) => x < c
    case NaN => false
    case Infinite(positive) => !positive
  }

  /** Java's `>` on a double and a finite constant. */
  predicate JavaGreater(v: ParsedDouble, c: real)
  {
    match v
    case Finite(x) => x > c
    case NaN => false
    case Infinite(positive) => positive
  }

  /** The range check as the handler writes it: reject when `val < 400 || val > 500`. */
  predicate AcceptedAsWritten(v: ParsedDouble)
  {
    !(JavaLess(v, MinA4) || JavaGreater(v, MaxA4))
  }

  /** The range check as intended: a number from 400 to 500 Hz. */
  predicate AcceptedA4(v: ParsedDouble)
  {
    v.Finite? && MinA4 <= v.value <= MaxA4
  }

  /** The text "NaN" parses to NaN, and NaN passes the check as written, so it would become
      the A4 reference. */
  lemma NaNPassesAsWrittenCheck()
    ensures AcceptedAsWritten(NaN) && !AcceptedA4(NaN)
  {
  }

  /** NaN is the only value on which the written check and the intended one differ. */
  lemma AsWrittenDiffersOnlyOnNaN(v: ParsedDouble)
    ensures v != NaN ==> (AcceptedAsWritten(v) <==> AcceptedA4(v))
    ensures AcceptedA4(v) ==> AcceptedAsWritten(v)
  {
  }

  // ------------------------------------------------------------ one audio frame

  /** Frequency to MIDI number against the reference `a4`. */
  function MidiAt(conv: Conversions, a4: real): real -> int
  {
    h => conv.hzToMidi(h, a4)
  }

  /** The chroma of one frame (`computeChroma`): twelve zeros without constant-Q output,
      otherwise the normalised accumulation of its bins. */
  function FrameChroma(bins: Option<seq<CqBin>>, hzToMidi: real -> int): (c: seq<real>)
    ensures IsChroma(c)
  {
    if bins.None? then Zeros() else Normalized(Accumulate(bins.value, hzToMidi))
  }

  /** The note listed for pitch class `pc`: labelled from the loudest peak in that pitch
      class, or from the A4 reference itself when no peak matches (its frequency is then the
      -1 sentinel). */
  function NoteFor(pc: int, peaks: seq<SpectralPeak>, a4: real, conv: Conversions): (n: NotePeak)
    ensures n.name == NoteLabel(n.midi) && n.mag == 0.0
    ensures n.hz == PeakHzOf(Some(peaks), pc, MidiAt(conv, a4))
  {
    var f := PeakHzOf(Some(peaks), pc, MidiAt(conv, a4));
    var midi := conv.hzToMidi(if f > 0.0 then f else a4, a4);
    NotePeak(NoteLabel(midi), midi, f, 0.0)
  }

  /** The notes listed for the selected pitch classes, in the same order. */
  function NotesFor(pcs: seq<int>, peaks: seq<SpectralPeak>, a4: real, conv: Conversions): seq<NotePeak>
  {
    seq(|pcs|, i requires 0 <= i < |pcs| => NoteFor(pcs[i], peaks, a4, conv))
  }

  /** The note for `pc`, given the frequency of its loudest peak. */
  lemma NoteForPeak(pc: int, peaks: seq<SpectralPeak>, a4: real, conv: Conversions, f: real)
    requires f == PeakHzOf(Some(peaks), pc, MidiAt(conv, a4))
    ensures var midi := conv.hzToMidi(if f > 0.0 then f else a4, a4);
            NoteFor(pc, peaks, a4, conv) == NotePeak(NoteLabel(midi), midi, f, 0.0)
  {
  }

  /** Labels each pitch class from its loudest peak, in order. */
  method LabelPitchClasses(pcs: seq<int>, peaks: seq<SpectralPeak>, a4: real, conv: Conversions)
    returns (notes: seq<NotePeak>)
    ensures notes == NotesFor(pcs, peaks, a4, conv)
  {
    var toMidi := MidiAt(conv, a4);
    notes := [];
    var i := 0;
    while i < |pcs|
      invariant 0 <= i <= |pcs| && |notes| == i
      invariant forall k :: 0 <= k < i ==> notes[k] == NoteFor(pcs[k], peaks, a4, conv)
    {
      var f := FindPeakNearPitchClass(Some(peaks), pcs[i], toMidi);
      var midi := conv.hzToMidi(if f > 0.0 then f else a4, a4);
      NoteForPeak(pcs[i], peaks, a4, conv, f);
      notes := notes + [NotePeak(NoteLabel(midi), midi, f, 0.0)];
      i := i + 1;
    }
  }

  /** A pitch class with no matching peak is listed as A4, whatever its pitch class. */
  lemma FallbackNoteIsA4(pc: int, peaks: seq<SpectralPeak>, a4: real, conv: Conversions)
    requires ReferenceIsA4(conv, a4)
    requires BestPeakIndex(peaks, pc, MidiAt(conv, a4)).None?
    ensures NoteFor(pc, peaks, a4, conv) == NotePeak("A4", 69, NoPeakHz, 0.0)
  {
    FloorMod12Unique(69, 5, 9);
    assert IntToDecimal(4) == "4";
  }

  /** The names of the notes, separated by ", " (the stream's `reduce`). */
  function JoinNames(notes: seq<NotePeak>): (text: string)
    requires notes != []
  {
    if |notes| == 1 then notes[0].name
    else JoinNames(notes[..|notes| - 1]) + ", " + notes[|notes| - 1].name
  }

  /** The four labels the frame updates. */
  datatype AnalysisView = AnalysisView(poly: string, chord: string, gesture: string, harmonics: string)

  /** The labels shown: all "--" without notes, otherwise the note list and the results. */
  function ViewOf(notes: seq<NotePeak>, chord: string, gesture: string, harmonics: string): AnalysisView
  {
    if notes == [] then AnalysisView("--", "--", "--", "--")
    else AnalysisView(JoinNames(notes), chord, gesture, harmonics)
  }

  /** Six pitch classes are always listed, so the labels are never blanked. */
  lemma NotesNeverEmpty(avg: seq<real>, peaks: seq<SpectralPeak>, a4: real, conv: Conversions)
    requires |avg| == 12
    ensures |NotesFor(TopPitchClasses(avg, PolyphonyNotes), peaks, a4, conv)| == PolyphonyNotes
  {
  }

  /** What `updatePitch` shows: nothing for a non-positive pitch, otherwise the note label and
      the tuner reading. */
  datatype PitchView = NoPitch | PitchShown(note: string, tuner: TunerReading)

  // ------------------------------------------------------------ the controller

  class PrimaryController {
    var chromaHistory: seq<seq<real>>
    var mainPitchHistory: seq<real>
    var calibrating: bool
    var calibrationSamples: seq<real>
    var a4RefHz: real
    var tunerMode: string
    /** An audio dispatcher exists (capture was started and not stopped). */
    var listening: bool
    var status: string

    ghost predicate Valid()
      reads this
    {
      AllChroma(chromaHistory)
      && |mainPitchHistory| <= PitchHistoryLimit
      && (forall i :: 0 <= i < |mainPitchHistory| ==> mainPitchHistory[i] > 0.0)
    }

    constructor()
      ensures Valid()
      ensures chromaHistory == [] && mainPitchHistory == [] && calibrationSamples == []
      ensures !calibrating && !listening && a4RefHz == DefaultA4 && tunerMode == AutoMode
      ensures status == "Idle"
    {
      chromaHistory := [];
      mainPitchHistory := [];
      calibrating := false;
      calibrationSamples := [];
      a4RefHz := DefaultA4;
      tunerMode := AutoMode;
      listening := false;
      status := "Idle";
    }

    /** `onStartStop`: starts capture when none runs, otherwise stops it. `openError` is the
        message of the failure to open the input, if opening it failed. */
    method OnStartStop(openError: Option<string>)
      modifies this
      ensures listening == (!old(listening) && openError.None?)
      ensures old(listening) ==> status == "Idle"
      ensures !old(listening) && openError.None? ==> status == "Listening..."
      ensures !old(listening) && openError.Some? ==> status == "Failed to open input: " + openError.value
      ensures chromaHistory == old(chromaHistory) && mainPitchHistory == old(mainPitchHistory)
      ensures calibrating == old(calibrating) && calibrationSamples == old(calibrationSamples)
      ensures a4RefHz == old(a4RefHz) && tunerMode == old(tunerMode)
    {
      if !listening {
        match openError
        case None =>
          listening := true;
          status := "Listening...";
        case Some(message) =>
          status := "Failed to open input: " + message;
      } else {
        listening := false;
        status := "Idle";
      }
    }

    /** The tuner-mode selector. */
    method SelectTunerMode(mode: string)
      modifies this
      ensures tunerMode == mode
      ensures chromaHistory == old(chromaHistory) && mainPitchHistory == old(mainPitchHistory)
      ensures calibrating == old(calibrating) && calibrationSamples == old(calibrationSamples)
      ensures a4RefHz == old(a4RefHz) && listening == old(listening) && status == old(status)
    {
      tunerMode := mode;
    }

    /** `pushChroma`: append the frame, then drop the oldest until at most `max` remain. */
    method PushChroma(chroma: seq<real>, max: nat)
      requires Valid() && IsChroma(chroma)
      modifies this
      ensures Valid()
      ensures chromaHistory == Window(old(chromaHistory) + [chroma], max)
      ensures mainPitchHistory == old(mainPitchHistory)
      ensures calibrating == old(calibrating) && calibrationSamples == old(calibrationSamples)
      ensures a4RefHz == old(a4RefHz) && tunerMode == old(tunerMode)
      ensures listening == old(listening) && status == old(status)
    {
      ghost var all := chromaHistory + [chroma];
      chromaHistory := chromaHistory + [chroma];
      ghost var dropped := 0;
      while |chromaHistory| > max
        invariant 0 <= dropped <= |all|
        invariant chromaHistory == all[dropped..]
        invariant |chromaHistory| >= max || dropped == 0
        invariant mainPitchHistory == old(mainPitchHistory)
        invariant calibrating == old(calibrating) && calibrationSamples == old(calibrationSamples)
        invariant a4RefHz == old(a4RefHz) && tunerMode == old(tunerMode)
        invariant listening == old(listening) && status == old(status)
        decreases |chromaHistory|
      {
        chromaHistory := chromaHistory[1..];
        dropped := dropped + 1;
      }
      assert AllChroma(all);
    }

    /** `averageChroma`: the bin-wise mean of the history, normalised to a peak of 1. */
    method AverageChroma() returns (out: seq<real>)
      requires Valid()
      ensures out == Smoothed(chromaHistory)
    {
      var acc := new real[PitchClasses](_ => 0.0);
      if |chromaHistory| == 0 {
        assert acc[..] == Zeros();
        return acc[..];
      }
      var k := 0;
      assert acc[..] == SumFrames(chromaHistory[..0]);
      while k < |chromaHistory|
        invariant 0 <= k <= |chromaHistory|
        invariant AllChroma(chromaHistory[..k])
        invariant acc[..] == SumFrames(chromaHistory[..k])
      {
        var c := chromaHistory[k];
        AddFrameInPlace(acc, c);
        assert chromaHistory[..k + 1][..k] == chromaHistory[..k];
        k := k + 1;
      }
      assert chromaHistory[..k] == chromaHistory;
      var n := |chromaHistory| as real;
      var i := 0;
      while i < PitchClasses
        invariant 0 <= i <= PitchClasses
        invariant forall j :: 0 <= j < i ==> acc[j] == SumFrames(chromaHistory)[j] / n
        invariant forall j :: i <= j < PitchClasses ==> acc[j] == SumFrames(chromaHistory)[j]
      {
        acc[i] := acc[i] / n;
        i := i + 1;
      }
      assert acc[..] == MeanFrame(chromaHistory);
      NormalizeInPlace(acc);
      out := acc[..];
    }

    /** `updatePitchHistory`. */
    method UpdatePitchHistory(hz: real)
      requires Valid()
      modifies this
      ensures Valid()
      ensures mainPitchHistory == PitchHistoryAfter(old(mainPitchHistory), hz)
      ensures chromaHistory == old(chromaHistory)
      ensures calibrating == old(calibrating) && calibrationSamples == old(calibrationSamples)
      ensures a4RefHz == old(a4RefHz) && tunerMode == old(tunerMode)
      ensures listening == old(listening) && status == old(status)
    {
      PitchHistoryIsBoundedFifo(mainPitchHistory, hz);
      if hz <= 0.0 {
        return;
      }
      if |mainPitchHistory| >= PitchHistoryLimit {
        mainPitchHistory := mainPitchHistory[1..];
      }
      mainPitchHistory := mainPitchHistory + [hz];
    }

    /** `onSetA4`, with the corrected range check: an unparsable value (`None`), NaN, an
        infinity or a number outside 400..500 Hz leaves the reference alone and reports the
        error; anything else becomes the reference. */
    method OnSetA4(parsed: Option<ParsedDouble>)
      modifies this
      ensures parsed.Some? && AcceptedA4(parsed.value) ==>
                a4RefHz == parsed.value.value && status == old(status)
      ensures !(parsed.Some? && AcceptedA4(parsed.value)) ==>
                a4RefHz == old(a4RefHz) && status == "Invalid A4 value (400–500 Hz)"
      ensures MinA4 <= old(a4RefHz) <= MaxA4 ==> MinA4 <= a4RefHz <= MaxA4
      ensures chromaHistory == old(chromaHistory) && mainPitchHistory == old(mainPitchHistory)
      ensures calibrating == old(calibrating) && calibrationSamples == old(calibrationSamples)
      ensures tunerMode == old(tunerMode) && listening == old(listening)
    {
      if parsed.Some? && AcceptedA4(parsed.value) {
        a4RefHz := parsed.value.value;
      } else {
        status := "Invalid A4 value (400–500 Hz)";
      }
    }

    /** `onCalibrate`: without capture it only asks for audio; during a session it does
        nothing; otherwise it starts a session with no samples. */
    method OnCalibrate()
      modifies this
      ensures !old(listening) ==>
                status == "Start audio, then calibrate"
                && calibrating == old(calibrating) && calibrationSamples == old(calibrationSamples)
      ensures old(listening) && old(calibrating) ==>
                status == old(status) && calibrating && calibrationSamples == old(calibrationSamples)
      ensures old(listening) && !old(calibrating) ==>
                calibrating && calibrationSamples == [] && status == "Calibrating... Pluck a string (2s)"
      ensures chromaHistory == old(chromaHistory) && mainPitchHistory == old(mainPitchHistory)
      ensures a4RefHz == old(a4RefHz) && tunerMode == old(tunerMode) && listening == old(listening)
    {
      if !listening {
        status := "Start audio, then calibrate";
        return;
      }
      if calibrating {
        return;
      }
      calibrating := true;
      calibrationSamples := [];
      status := "Calibrating... Pluck a string (2s)";
    }

    /** `maybeCollectCalibration`: appends the pitch's sample, if it yields one. */
    method MaybeCollectCalibration(pitchHz: real, confidence: real, conv: Conversions)
      modifies this
      ensures calibrationSamples == old(calibrationSamples) +
                match SampleOf(old(calibrating), pitchHz, confidence, old(a4RefHz), conv)
                case None => []
                case Some(s) => [s]
      ensures chromaHistory == old(chromaHistory) && mainPitchHistory == old(mainPitchHistory)
      ensures calibrating == old(calibrating) && a4RefHz == old(a4RefHz)
      ensures tunerMode == old(tunerMode) && listening == old(listening) && status == old(status)
    {
      if !calibrating {
        return;
      }
      if confidence < SampleConfidence {
        return;
      }
      var midi := conv.hzToMidi(pitchHz, a4RefHz);
      var targetHz := conv.midiToHz(midi, a4RefHz);
      if targetHz <= 0.0 {
        return;
      }
      var cents := conv.cents(pitchHz, targetHz);
      calibrationSamples := calibrationSamples + [cents];
    }

    /** `computeCalibrationOffset`: sort a copy of the samples and take the clamped middle one;
        no offset without samples. */
    method ComputeCalibrationOffset() returns (offset: Option<real>)
      ensures offset == CalibrationOffset(calibrationSamples)
    {
      if calibrationSamples == [] {
        return None;
      }
      var arr := Sorting.SortAscending(calibrationSamples);
      var median := arr[|arr| / 2];
      if median > MaxOffsetCents {
        median := MaxOffsetCents;
      }
      if median < -MaxOffsetCents {
        median := -MaxOffsetCents;
      }
      offset := Some(median);
    }

    /** The end of a calibration session (the body of the calibration thread after its
        wait): the reference moves by the offset when there is one, and the session ends. */
    method FinishCalibration(conv: Conversions)
      modifies this
      ensures a4RefHz == CalibratedA4(old(a4RefHz), old(calibrationSamples), conv)
      ensures old(calibrationSamples) == [] ==> a4RefHz == old(a4RefHz)
      ensures !calibrating && status == "Calibration done"
      ensures calibrationSamples == old(calibrationSamples)
      ensures chromaHistory == old(chromaHistory) && mainPitchHistory == old(mainPitchHistory)
      ensures tunerMode == old(tunerMode) && listening == old(listening)
    {
      var offset := ComputeCalibrationOffset();
      if offset.Some? {
        a4RefHz := conv.shiftByCents(a4RefHz, offset.value);
      }
      calibrating := false;
      status := "Calibration done";
    }

    /** `updatePitch`: a non-positive pitch blanks the note; otherwise the pitch may feed the
        calibration, and the note label and the tuner reading are shown. */
    method UpdatePitch(pitchHz: real, confidence: real, conv: Conversions) returns (view: PitchView)
      modifies this
      ensures pitchHz <= 0.0 ==> view == NoPitch && calibrationSamples == old(calibrationSamples)
      ensures pitchHz > 0.0 ==>
                view == PitchShown(NoteLabel(conv.hzToMidi(pitchHz, old(a4RefHz))),
                                   TunerOf(pitchHz, confidence, old(tunerMode), old(a4RefHz), conv))
                && calibrationSamples == old(calibrationSamples) +
                     match SampleOf(old(calibrating), pitchHz, confidence, old(a4RefHz), conv)
                     case None => []
                     case Some(s) => [s]
      ensures chromaHistory == old(chromaHistory) && mainPitchHistory == old(mainPitchHistory)
      ensures calibrating == old(calibrating) && a4RefHz == old(a4RefHz)
      ensures tunerMode == old(tunerMode) && listening == old(listening) && status == old(status)
    {
      if pitchHz <= 0.0 {
        return NoPitch;
      }
      MaybeCollectCalibration(pitchHz, confidence, conv);
      var midi := conv.hzToMidi(pitchHz, a4RefHz);
      var reading := UpdateTuner(pitchHz, confidence, tunerMode, a4RefHz, conv);
      view := PitchShown(NoteLabel(midi), reading);
    }

    /** The notes loop of `analyzeSpectrum`. */
    method SelectNotes(avg: seq<real>, peaks: seq<SpectralPeak>, conv: Conversions) returns (notes: seq<NotePeak>)
      requires |avg| == 12
      ensures notes == NotesFor(TopPitchClasses(avg, PolyphonyNotes), peaks, a4RefHz, conv)
    {
      var top := TopPitchClasses(avg, PolyphonyNotes);
      notes := LabelPitchClasses(top, peaks, a4RefHz, conv);
    }

    /** `analyzeSpectrum` for one audio frame. Without a peak processor (`peaks` is None)
        nothing happens. Otherwise the frame's chroma joins the window of 8, the smoothed
        chroma picks six pitch classes, each labelled from its loudest peak, the strongest
        one's frequency joins the pitch history (the -1 sentinel is ignored there), and the
        chord, gesture and harmonics labels are derived. */
    method AnalyzeSpectrum(bins: Option<seq<CqBin>>, peaks: Option<seq<SpectralPeak>>, conv: Conversions)
      returns (view: Option<AnalysisView>)
      requires Valid()
      modifies this
      ensures Valid()
      ensures peaks.None? ==>
                view.None? && chromaHistory == old(chromaHistory) && mainPitchHistory == old(mainPitchHistory)
      ensures peaks.Some? ==>
                var history := Window(old(chromaHistory) + [FrameChroma(bins, MidiAt(conv, a4RefHz))], ChromaWindow);
                var avg := Smoothed(history);
                var notes := NotesFor(TopPitchClasses(avg, PolyphonyNotes), peaks.value, a4RefHz, conv);
                chromaHistory == history
                && mainPitchHistory == PitchHistoryAfter(old(mainPitchHistory), notes[0].hz)
                && view == Some(ViewOf(notes, Label(GuessOf(avg)),
                                       ShapeText(GestureOf(mainPitchHistory, conv.cents)),
                                       HarmonicsText(Some(notes))))
      ensures calibrating == old(calibrating) && calibrationSamples == old(calibrationSamples)
      ensures a4RefHz == old(a4RefHz) && tunerMode == old(tunerMode)
      ensures listening == old(listening) && status == old(status)
    {
      if peaks.None? {
        return None;
      }
      var chroma := ComputeChroma(bins, MidiAt(conv, a4RefHz));
      PushChroma(chroma, ChromaWindow);
      var avg := AverageChroma();
      var notes := SelectNotes(avg, peaks.value, conv);
      var chord := GuessChordFromChroma(avg);
      NotesNeverEmpty(avg, peaks.value, a4RefHz, conv);
      UpdatePitchHistory(notes[0].hz);
      var gesture := EstimateGesture(mainPitchHistory, conv.cents);
      var harmonics := EstimateHarmonics(Some(notes));
      view := Some(ViewOf(notes, chord, ShapeText(gesture), harmonics));
    }
  }

  /** Adds one frame into the running sums, bin by bin. */
  method AddFrameInPlace(acc: array<real>, c: seq<real>)
    requires acc.Length == PitchClasses && IsChroma(c)
    modifies acc
    ensures acc[..] == AddFrames(old(acc[..]), c)
  {
    var i := 0;
    while i < PitchClasses
      invariant 0 <= i <= PitchClasses
      invariant forall j :: 0 <= j < i ==> acc[j] == old(acc[j]) + c[j]
      invariant forall j :: i <= j < PitchClasses ==> acc[j] == old(acc[j])
    {
      acc[i] := acc[i] + c[i];
      i := i + 1;
    }
  }
}
