# NoteDetectTest analysis core, modelled in Dafny

This project models the analysis logic of the NoteDetectTest guitar tool and proves properties
about it. On the analysis screen, each audio frame goes through these steps:

- The frame's constant-Q bins are folded into a 12-bin chroma vector, normalised to a peak of 1.
- The vector is smoothed over the last 8 frames.
- The six strongest pitch classes are picked and labelled from their loudest spectral peak.
- A chord label is derived from chroma template scores.
- The main note joins a 50-entry pitch history, from which a melodic gesture is classified (slide, bend, vibrato, stable).
- The harmonics label counts notes that sit near whole multiples of the main note.

Each detected pitch also drives three things:

- the note label;
- a six-string guitar tuner;
- a median-based calibration of the A4 reference.

The tab browser contributes these helpers:

- file-name sanitising;
- note names of a string tuning;
- locating the state payload in a song page;
- finding a track node by hash;
- the track entry and its label and preview;
- unwrapping asynchronous failures.

Modules follow the program's structure:

- `JavaLang`: Java integer division, remainder, `floorMod`, `Math.round`, `signum`, and decimal printing with its parse-back.
- `Sorting`: `Arrays.sort` on doubles, plus order statistics.
- `NoteNames`: the name table, note labels, and `NotePeak`.
- `Chroma`, `ChordRecognizer`, `NoteSelector`, `Gesture`, `Harmonics`, `Tuner`, `Calibration`: the pure pieces.
- `Analysis`: the `PrimaryController` class with its mutable fields (histories, calibration session, A4 reference, tuner mode) and its handlers.
- `TabText` and `TabModel`: the tab browser helpers, including the `TrackItem` class.

Each loop of the source is a `method` proved equal to a specification function. The functions carry the properties.

The transcendental conversions are parameters. They are frequency to MIDI number, MIDI number to frequency, cents between two frequencies, and shifting a frequency by cents. They appear as the `NoteNames.Conversions` record of functions, because they are computed with `Math.log` and `Math.pow`. Doubles are modelled as reals.

Two details follow the code rather than their usual reading:
- The calibration "median" is the element at index `n / 2` of the sorted samples. For an even count that is the upper median, not an average of the two middle ones.
- Ties in the pitch-class ranking go to the lower pitch class, as the stable `List.sort` leaves them.

## Model

| member | source | states |
|---|---|---|
| JavaLang.Div12 | hellofx/src/main/java/org/openjfx/PrimaryController.java:205 | Java's `/` by 12 truncates toward zero: the quotient brackets the dividend from below for non-negative and from above for negative values |
| JavaLang.Rem12 | hellofx/src/main/java/org/openjfx/TabPrototypeController.java:384 | Java's `%` by 12: `a == 12 * (a / 12) + r`, with the remainder taking the sign of `a` |
| JavaLang.FloorMod12 | hellofx/src/main/java/org/openjfx/PrimaryController.java:323 | `Math.floorMod(a, 12)` lies in 0..11 and differs from `a` by a multiple of 12 |
| JavaLang.Div12IsFloorIffExact | hellofx/src/main/java/org/openjfx/PrimaryController.java:205 | truncating and floor division agree exactly for non-negative or divisible dividends |
| JavaLang.ShiftedRemIsFloorMod | hellofx/src/main/java/org/openjfx/TabPrototypeController.java:384 | `(a % 12 + 12) % 12` equals `floorMod(a, 12)` for every integer |
| JavaLang.Round | hellofx/src/main/java/org/openjfx/PrimaryController.java:723 | `Math.round` gives the integer within half a unit (ties upward) |
| JavaLang.Signum | hellofx/src/main/java/org/openjfx/PrimaryController.java:705 | `Math.signum` is -1, 0 or 1, positive exactly for positive and negative exactly for negative values |
| JavaLang.ParseIntToDecimal | hellofx/src/main/java/org/openjfx/PrimaryController.java:255 | printing an int in decimal (as string concatenation does) reads back to the same int |
| Sorting.SortAscending | hellofx/src/main/java/org/openjfx/PrimaryController.java:414 | the sorted copy is ascending, the same multiset and the same length |
| Sorting.AscendingPermutationUnique | hellofx/src/main/java/org/openjfx/PrimaryController.java:414 | two ascending arrangements of the same samples are equal, so any sort gives the same array |
| Sorting.OrderStatistic | hellofx/src/main/java/org/openjfx/PrimaryController.java:415 | the k-th sorted element is a sample, with at least k+1 samples at most it and at least n-k at least it |
| NoteNames.NamesShapeAndDistinct | hellofx/src/main/java/org/openjfx/PrimaryController.java:223-227 | the name table holds 12 distinct names, each a letter optionally followed by `#` |
| NoteNames.MidiToNoteName | hellofx/src/main/java/org/openjfx/PrimaryController.java:223-227 | `midiToNoteName` picks the table entry at `floorMod(midi, 12)` |
| NoteNames.SameNameIffSamePitchClass | hellofx/src/main/java/org/openjfx/PrimaryController.java:223-227 | two MIDI numbers get the same name exactly when they differ by a multiple of 12 |
| NoteNames.OctaveNumber | hellofx/src/main/java/org/openjfx/PrimaryController.java:205 | the printed octave `midi / 12 - 1` is the floor octave from MIDI 0 up and -1 for MIDI -11..-1 |
| NoteNames.NoteLabelRoundTrip | hellofx/src/main/java/org/openjfx/PrimaryController.java:204-208 | a note label (name plus octave) reads back into its pitch class and octave |
| NoteNames.NoteLabelIdentifiesMidi | hellofx/src/main/java/org/openjfx/PrimaryController.java:204-208 | for MIDI numbers from 0 up, the label determines the MIDI number |
| NoteNames.TruncatedOctaveLabelCollides | hellofx/src/main/java/org/openjfx/PrimaryController.java:204-208 | with truncating division MIDI -1 and MIDI 11 both print as "B-1" |
| Chroma.Zeros | hellofx/src/main/java/org/openjfx/PrimaryController.java:309 | without a transform or a frame the chroma is twelve zeros |
| Chroma.MaxFromZero | hellofx/src/main/java/org/openjfx/PrimaryController.java:331-332 | the running maximum from 0 is at least 0, bounds every bin, and is 0 or one of the bins |
| Chroma.NormalizedRange | hellofx/src/main/java/org/openjfx/PrimaryController.java:331-333 | after normalising, a non-negative vector lies in [0, 1] |
| Chroma.NormalizedPeak | hellofx/src/main/java/org/openjfx/PrimaryController.java:331-333 | a vector with a positive bin normalises to a maximum of exactly 1, reached at some bin |
| Chroma.NormalizedIdempotent | hellofx/src/main/java/org/openjfx/PrimaryController.java:331-333 | normalising twice equals normalising once |
| Chroma.NormalizedIgnoresGain | hellofx/src/main/java/org/openjfx/PrimaryController.java:331-333 | scaling a vector by a positive factor does not change its normalised form |
| Chroma.NormalizeInPlace | hellofx/src/main/java/org/openjfx/PrimaryController.java:331-333 | the in-place max loop and division leave the array equal to the normalised original |
| Chroma.PitchClassOf | hellofx/src/main/java/org/openjfx/PrimaryController.java:322-323 | a bin's pitch class is in 0..11 |
| Chroma.AccumulateIsPitchClassEnergy | hellofx/src/main/java/org/openjfx/PrimaryController.java:319-329 | each chroma bin is the sum of the weights of the in-band (55..4000 Hz) transform bins folding into that pitch class |
| Chroma.AccumulateNonNegative | hellofx/src/main/java/org/openjfx/PrimaryController.java:319-329 | non-negative weights give a non-negative chroma |
| Chroma.ComputeChroma | hellofx/src/main/java/org/openjfx/PrimaryController.java:308-335 | `computeChroma` gives zeros without input, otherwise the normalised pitch-class energies |
| Chroma.AddFrames | hellofx/src/main/java/org/openjfx/PrimaryController.java:298-300 | adding a frame adds bin by bin |
| Chroma.SumFramesSign | hellofx/src/main/java/org/openjfx/PrimaryController.java:298-300 | a summed bin is non-negative, and positive exactly when some frame has it positive |
| Chroma.SmoothedRange | hellofx/src/main/java/org/openjfx/PrimaryController.java:295-306 | the averaged chroma lies in [0, 1] and peaks at exactly 1 when any frame has energy |
| Chroma.SteadyInputSmoothsToItself | hellofx/src/main/java/org/openjfx/PrimaryController.java:295-306 | averaging identical frames gives that frame, normalised |
| ChordRecognizer.LabelRoundTrip | hellofx/src/main/java/org/openjfx/PrimaryController.java:458-498 | every chord label (root name plus " 5", " Maj", " Min", " 7" or " m7") reads back to its root and kind |
| ChordRecognizer.Base | hellofx/src/main/java/org/openjfx/PrimaryController.java:446 | the reference level is at least 1e-6, the root and the fifth |
| ChordRecognizer.UngatedIsUnscored | hellofx/src/main/java/org/openjfx/PrimaryController.java:461-494 | a hypothesis whose third or seventh is too weak keeps the -1e9 score |
| ChordRecognizer.ArgMaxFirst | hellofx/src/main/java/org/openjfx/PrimaryController.java:501-502 | the scan picks a maximal score, the first one among equals |
| ChordRecognizer.StrictMaxIsArgMax | hellofx/src/main/java/org/openjfx/PrimaryController.java:501-502 | a strictly greatest score is the one chosen |
| ChordRecognizer.ChooseForRoot | hellofx/src/main/java/org/openjfx/PrimaryController.java:440-506 | the per-root loop yields the specified choice, including the demotion of a seventh to the power chord |
| ChordRecognizer.ChoiceScoreIsItsKindScore | hellofx/src/main/java/org/openjfx/PrimaryController.java:497-506 | the chosen kind's score is that kind's template score |
| ChordRecognizer.SeventhBeatsPowerByMargin | hellofx/src/main/java/org/openjfx/PrimaryController.java:503-506 | a reported seventh chord beats a scored power chord at its root by at least 0.12 |
| ChordRecognizer.BestOfIsMaximum | hellofx/src/main/java/org/openjfx/PrimaryController.java:508 | the best root has the highest score, and no earlier root ties it |
| ChordRecognizer.TotalEnergy | hellofx/src/main/java/org/openjfx/PrimaryController.java:429 | the total is the sum of the chroma |
| ChordRecognizer.GuessOf | hellofx/src/main/java/org/openjfx/PrimaryController.java:427-513 | the guess is "--", "Uncertain" or a chord with a root in 0..11 |
| ChordRecognizer.GuessChordFromChroma | hellofx/src/main/java/org/openjfx/PrimaryController.java:427-513 | the nested loops produce the label of the specified guess |
| ChordRecognizer.NoEnergyIffSilent | hellofx/src/main/java/org/openjfx/PrimaryController.java:429-430 | "--" is reported exactly when the total energy is at most 1e-6 |
| ChordRecognizer.ReportedChordPassesGate | hellofx/src/main/java/org/openjfx/PrimaryController.java:447-449 | a reported major, minor or seventh chord has the required third and seventh at its root |
| ChordRecognizer.ReportedChordIsBestRoot | hellofx/src/main/java/org/openjfx/PrimaryController.java:439-512 | a reported chord's root scores highest, above every earlier root, and at least 0.20 |
| ChordRecognizer.UncertainIffAllRootsWeak | hellofx/src/main/java/org/openjfx/PrimaryController.java:511 | "Uncertain" is reported exactly when there is energy but every root scores below 0.20 |
| ChordRecognizer.FifthChromaAtC | hellofx/src/main/java/org/openjfx/PrimaryController.java:451-506 | C and G alone score the power chord 1.95 and leave the others unscored |
| ChordRecognizer.TriadChromaAtC | hellofx/src/main/java/org/openjfx/PrimaryController.java:451-506 | C with half-strength E and G scores major 1.775 above power 1.315 |
| ChordRecognizer.StrictlyBestRootIsReported | hellofx/src/main/java/org/openjfx/PrimaryController.java:498-512 | a root that scores at least 0.20 and strictly above every other root is the reported chord, with its own hypothesis |
| ChordRecognizer.ChoiceBelow | hellofx/src/main/java/org/openjfx/PrimaryController.java:498-505 | when all five hypotheses at a root score below a bound, so does the root's choice, demotion or not |
| ChordRecognizer.BestOfSnoc | hellofx/src/main/java/org/openjfx/PrimaryController.java:509 | the running best moves to the next root exactly when that root's score is strictly larger |
| ChordRecognizer.FifthChromaIsC5 | hellofx/src/main/java/org/openjfx/PrimaryController.java:427-513 | C and G alone (each 1.0) are reported as the C power chord: every other root scores at most 1.2 |
| ChordRecognizer.TriadChromaIsCMajor | hellofx/src/main/java/org/openjfx/PrimaryController.java:427-513 | C with half-strength E and G is reported as C major: every other root scores at most 1.35 |
| ChordRecognizer.ExampleLabels | hellofx/src/main/java/org/openjfx/PrimaryController.java:458-461 | the C power chord is labelled "C 5" and C major "C Maj" |
| ChordRecognizer.TriadGuessIsFirstTriad | hellofx/src/main/java/org/openjfx/PrimaryController.java:734-740 | `guessChord` reports the lowest root with a complete major (preferred) or minor triad, and "Uncertain" exactly when there is none |
| ChordRecognizer.NoteSetGuess | hellofx/src/main/java/org/openjfx/PrimaryController.java:729-741 | the note-set guess is "--", "Uncertain" or a major or minor chord |
| ChordRecognizer.GuessChord | hellofx/src/main/java/org/openjfx/PrimaryController.java:729-741 | the loop returns the label of the specified note-set guess |
| ChordRecognizer.NegativeClassIsIgnored | hellofx/src/main/java/org/openjfx/PrimaryController.java:734-740 | a negative pitch class never takes part in a triad, so adding one leaves the guess unchanged |
| ChordRecognizer.NegativeMidiIsIgnored | hellofx/src/main/java/org/openjfx/PrimaryController.java:732-740 | adding a note below MIDI 0 that is not a multiple of 12 (negative Java remainder) to two or more notes leaves the guess unchanged |
| ChordRecognizer.LowGDoesNotCompleteCMajor | hellofx/src/main/java/org/openjfx/PrimaryController.java:732-740 | C4 and E4 with a G at MIDI -5 are "Uncertain", not C major |
| ChordRecognizer.LowCCompletesCMajor | hellofx/src/main/java/org/openjfx/PrimaryController.java:732-740 | a C at MIDI -12 (remainder 0) with E4 and G4 is C major |
| NoteSelector.Ranking | hellofx/src/main/java/org/openjfx/PrimaryController.java:338-340 | the sorted index list is a permutation of 0..11 ordered by non-increasing chroma, ties by index |
| NoteSelector.RankingUnique | hellofx/src/main/java/org/openjfx/PrimaryController.java:340 | only one ordering of the pitch classes is ranked, so the stable sort's result is determined |
| NoteSelector.RankingHasEveryPitchClass | hellofx/src/main/java/org/openjfx/PrimaryController.java:338-340 | every pitch class appears in the ranking |
| NoteSelector.TopPitchClasses | hellofx/src/main/java/org/openjfx/PrimaryController.java:337-343 | `topPitchClasses` returns the first min(k, 12) entries of the ranking |
| NoteSelector.TopPitchClassesAreStrongest | hellofx/src/main/java/org/openjfx/PrimaryController.java:337-343 | the selected classes are distinct and non-increasing, and each one precedes every class left out |
| NoteSelector.BestPeakIndex | hellofx/src/main/java/org/openjfx/PrimaryController.java:348-353 | the chosen peak folds into the pitch class, is louder than -1e9 and every other such peak, and is the first of equals |
| NoteSelector.FindPeakNearPitchClass | hellofx/src/main/java/org/openjfx/PrimaryController.java:345-355 | the loop returns -1 without peaks or without a matching peak, otherwise the chosen peak's frequency |
| Gesture.ShapeText | hellofx/src/main/java/org/openjfx/PrimaryController.java:686-713 | every gesture label is a non-empty text ("--", "Slide Up", ..., "Stable") |
| Gesture.ShapeTextInjective | hellofx/src/main/java/org/openjfx/PrimaryController.java:686-713 | different gestures have different labels |
| Gesture.CentsTrace | hellofx/src/main/java/org/openjfx/PrimaryController.java:691-694 | the trace holds each frequency's cents relative to the first one |
| Gesture.GestureOf | hellofx/src/main/java/org/openjfx/PrimaryController.java:685-714 | "--" exactly when fewer than 6 entries are held or the first is not positive |
| Gesture.SignChangesBound | hellofx/src/main/java/org/openjfx/PrimaryController.java:700-707 | at most n-2 sign changes between the n-1 steps |
| Gesture.ClassifyShiftInvariant | hellofx/src/main/java/org/openjfx/PrimaryController.java:695-713 | shifting the whole trace by a constant does not change the gesture |
| Gesture.ClassifyMirror | hellofx/src/main/java/org/openjfx/PrimaryController.java:710-713 | mirroring the trace swaps Up and Down and keeps Vibrato and Stable |
| Gesture.RisingTraceIsSlideOrBendUp | hellofx/src/main/java/org/openjfx/PrimaryController.java:710-711 | a strictly rising trace is a slide up beyond 150 cents and a bend up between 25 and 150 |
| Gesture.FlatTraceIsStable | hellofx/src/main/java/org/openjfx/PrimaryController.java:713 | a constant trace is Stable |
| Gesture.SwingIsVibrato | hellofx/src/main/java/org/openjfx/PrimaryController.java:712 | a 10-cent alternating trace of ten entries is Vibrato |
| Gesture.CentsArray | hellofx/src/main/java/org/openjfx/PrimaryController.java:691-694 | the new array holds the cents trace of the history relative to the first frequency |
| Gesture.ScanSteps | hellofx/src/main/java/org/openjfx/PrimaryController.java:699-707 | the loop computes the sum of absolute steps and the number of direction changes of the whole array |
| Gesture.ScanStep | hellofx/src/main/java/org/openjfx/PrimaryController.java:703-706 | one more step adds its absolute size to the sum and counts a change of sign from the second step on |
| Gesture.EstimateGesture | hellofx/src/main/java/org/openjfx/PrimaryController.java:685-714 | the cents and statistics loops produce the specified gesture |
| Harmonics.HarmonicIffNearSomeMultiple | hellofx/src/main/java/org/openjfx/PrimaryController.java:722-724 | rounding finds a harmonic exactly when the ratio is within 0.05 of some whole multiple of at least 2 |
| Harmonics.HarmonicScaleInvariant | hellofx/src/main/java/org/openjfx/PrimaryController.java:722-724 | scaling all frequencies by the same factor keeps harmonics harmonics |
| Harmonics.HarmonicCount | hellofx/src/main/java/org/openjfx/PrimaryController.java:719-725 | at most the number of notes after the first are counted |
| Harmonics.HarmonicsTextMeaning | hellofx/src/main/java/org/openjfx/PrimaryController.java:716-727 | "--" exactly without notes; "Yes (n)" with the count when at least two harmonics are found; "No" otherwise |
| Harmonics.CountIsHarmonicPositions | hellofx/src/main/java/org/openjfx/PrimaryController.java:719-725 | the count is the number of positions after the first whose notes are within 0.05 of a whole multiple, at least 2, of the first note's frequency |
| Harmonics.NoteIsNotItsOwnHarmonic | hellofx/src/main/java/org/openjfx/PrimaryController.java:721-724 | a frequency is never a harmonic of itself, so skipping the first note cannot change the count |
| Harmonics.ThreeHarmonicsExample | hellofx/src/main/java/org/openjfx/PrimaryController.java:716-727 | 110 Hz with 220, 330 and 445 Hz shows "Yes (3)" |
| Harmonics.EstimateHarmonics | hellofx/src/main/java/org/openjfx/PrimaryController.java:716-727 | the counting loop produces the specified label |
| Tuner.StringNamesAreNoteLabels | hellofx/src/main/java/org/openjfx/PrimaryController.java:574-581 | each string's label is the note label of its MIDI number |
| Tuner.StandardStringsOrdered | hellofx/src/main/java/org/openjfx/PrimaryController.java:574-581 | the six strings rise strictly in pitch and have distinct labels |
| Tuner.Nearest | hellofx/src/main/java/org/openjfx/PrimaryController.java:605-610 | the "Auto" scan finds a string with the smallest absolute offset, the first of equals |
| Tuner.Named | hellofx/src/main/java/org/openjfx/PrimaryController.java:614 | the fixed-mode scan finds the first string with the chosen label, or none |
| Tuner.TunerReadingMeaning | hellofx/src/main/java/org/openjfx/PrimaryController.java:593-629 | a reading appears only for a positive pitch with confidence at least 0.75, is measured from its target string, and that string is the nearest within 500 cents in "Auto" mode or the chosen one otherwise |
| Tuner.TunerIdleMeaning | hellofx/src/main/java/org/openjfx/PrimaryController.java:593-622 | nothing is shown exactly for a weak pitch, an "Auto" pitch over 500 cents from every string, or a mode naming no string |
| Tuner.FixedModeTargetsItsString | hellofx/src/main/java/org/openjfx/PrimaryController.java:614 | choosing a string's label always targets that string |
| Tuner.UpdateTuner | hellofx/src/main/java/org/openjfx/PrimaryController.java:593-629 | the loops produce the specified reading |
| Calibration.SampleOf | hellofx/src/main/java/org/openjfx/PrimaryController.java:398-406 | a sample is taken only while calibrating with confidence at least 0.85 |
| Calibration.Clamp | hellofx/src/main/java/org/openjfx/PrimaryController.java:417 | the clamp lies in [-50, 50], keeps values inside and maps values outside to the nearer bound |
| Calibration.CalibrationOffset | hellofx/src/main/java/org/openjfx/PrimaryController.java:408-419 | there is no offset exactly when there are no samples; any offset lies in [-50, 50] |
| Calibration.MedianIsMiddleSample | hellofx/src/main/java/org/openjfx/PrimaryController.java:414-415 | the median is a sample, more than half the samples are at most it and at least half are at least it |
| Calibration.OffsetIgnoresOrder | hellofx/src/main/java/org/openjfx/PrimaryController.java:408-419 | the offset depends only on the multiset of samples |
| Calibration.UnanimousSamples | hellofx/src/main/java/org/openjfx/PrimaryController.java:408-419 | identical samples give that sample, clamped |
| Calibration.OffsetFromAnySortedCopy | hellofx/src/main/java/org/openjfx/PrimaryController.java:414-415 | any ascending arrangement of the samples yields the same middle element |
| Calibration.OutlierIsIgnored | hellofx/src/main/java/org/openjfx/PrimaryController.java:414-418 | samples 3, -2 and 400 cents give an offset of 3 |
| Calibration.CalibratedA4 | hellofx/src/main/java/org/openjfx/PrimaryController.java:383-387 | without samples the reference is unchanged; otherwise it is shifted by the clamped median |
| Analysis.Window | hellofx/src/main/java/org/openjfx/PrimaryController.java:290-293 | the window holds min(n, max) items |
| Analysis.WindowIsFifo | hellofx/src/main/java/org/openjfx/PrimaryController.java:290-293 | the chroma history keeps at most `max` frames, the newest last and the rest in arrival order |
| Analysis.PitchHistoryIsBoundedFifo | hellofx/src/main/java/org/openjfx/PrimaryController.java:679-683 | the pitch history stays within 50 positive entries, ignores non-positive input, and appends the new one after the older ones |
| Analysis.NaNPassesAsWrittenCheck | hellofx/src/main/java/org/openjfx/PrimaryController.java:361-363 | NaN passes `val < 400 \|\| val > 500` as written, though it is no frequency from 400 to 500 |
| Analysis.AsWrittenDiffersOnlyOnNaN | hellofx/src/main/java/org/openjfx/PrimaryController.java:362 | the written check and the intended one agree on every value except NaN |
| Analysis.FrameChroma | hellofx/src/main/java/org/openjfx/PrimaryController.java:245 | a frame's chroma has 12 bins |
| Analysis.NoteFor | hellofx/src/main/java/org/openjfx/PrimaryController.java:251-257 | a selected note is labelled with its MIDI number's note label and carries the pitch class's peak frequency (or -1) |
| Analysis.FallbackNoteIsA4 | hellofx/src/main/java/org/openjfx/PrimaryController.java:253-256 | a pitch class without a peak is labelled from the A4 reference: "A4", MIDI 69, frequency -1 |
| Analysis.NotesNeverEmpty | hellofx/src/main/java/org/openjfx/PrimaryController.java:249-263 | six notes are always selected, so the main pitch always exists |
| Analysis.PrimaryController.constructor | hellofx/src/main/java/org/openjfx/PrimaryController.java:55-62 | empty histories, no calibration, A4 = 440 Hz, "Auto" tuner mode, status "Idle" |
| Analysis.PrimaryController.OnStartStop | hellofx/src/main/java/org/openjfx/PrimaryController.java:83-89 | starts capture ("Listening...") or reports "Failed to open input: " and the message; stops capture ("Idle") when running |
| Analysis.PrimaryController.SelectTunerMode | hellofx/src/main/java/org/openjfx/PrimaryController.java:587 | the tuner mode becomes the selection and nothing else changes |
| Analysis.PrimaryController.PushChroma | hellofx/src/main/java/org/openjfx/PrimaryController.java:290-293 | after the evicting loop the history is the last `max` of the old history plus the frame |
| Analysis.PrimaryController.AverageChroma | hellofx/src/main/java/org/openjfx/PrimaryController.java:295-306 | the summing, dividing and normalising loops give the smoothed chroma of the history |
| Analysis.PrimaryController.UpdatePitchHistory | hellofx/src/main/java/org/openjfx/PrimaryController.java:679-683 | the pitch history becomes the specified bounded FIFO successor |
| Analysis.PrimaryController.OnSetA4 | hellofx/src/main/java/org/openjfx/PrimaryController.java:358-368 | a parsed frequency from 400 to 500 Hz becomes the reference; anything else keeps it and reports "Invalid A4 value (400–500 Hz)" |
| Analysis.PrimaryController.OnCalibrate | hellofx/src/main/java/org/openjfx/PrimaryController.java:371-380 | without capture it only asks for audio; during a session it does nothing; otherwise it starts a session with no samples |
| Analysis.PrimaryController.MaybeCollectCalibration | hellofx/src/main/java/org/openjfx/PrimaryController.java:398-406 | the samples grow by exactly the pitch's sample, if any |
| Analysis.PrimaryController.ComputeCalibrationOffset | hellofx/src/main/java/org/openjfx/PrimaryController.java:408-419 | the sort-and-clamp code gives the specified offset |
| Analysis.PrimaryController.FinishCalibration | hellofx/src/main/java/org/openjfx/PrimaryController.java:383-392 | the reference moves by the offset (unchanged without samples), the session ends, status "Calibration done" |
| Analysis.PrimaryController.UpdatePitch | hellofx/src/main/java/org/openjfx/PrimaryController.java:193-211 | a non-positive pitch blanks the note; otherwise the pitch may add a calibration sample, and the note label and tuner reading are shown |
| Analysis.PrimaryController.SelectNotes | hellofx/src/main/java/org/openjfx/PrimaryController.java:249-257 | the notes listed are those of the six strongest pitch classes, in ranking order |
| Analysis.LabelPitchClasses | hellofx/src/main/java/org/openjfx/PrimaryController.java:250-257 | the k-th note is labelled from the loudest peak of the k-th pitch class, or from A4 when none matches |
| Analysis.PrimaryController.AnalyzeSpectrum | hellofx/src/main/java/org/openjfx/PrimaryController.java:229-288 | one frame updates both histories as specified and shows the notes, chord, gesture and harmonics labels of the smoothed chroma; without a peak processor nothing changes |
| Analysis.AddFrameInPlace | hellofx/src/main/java/org/openjfx/PrimaryController.java:299 | adding a frame into the array of sums adds bin by bin |
| TabText.KeepSafe | hellofx/src/main/java/org/openjfx/TabPrototypeController.java:368 | the filter keeps only letters, digits, `-`, `_` and spaces |
| TabText.Sanitize | hellofx/src/main/java/org/openjfx/TabPrototypeController.java:367-373 | the file-name part is non-empty and made only of letters, digits, `-` and `_` |
| TabText.SanitizeIdempotent | hellofx/src/main/java/org/openjfx/TabPrototypeController.java:367-373 | sanitising twice equals sanitising once |
| TabText.SanitizeKeepsSafeNames | hellofx/src/main/java/org/openjfx/TabPrototypeController.java:367-373 | a non-empty name of safe characters is unchanged |
| TabText.NoSafeCharacterGivesFallback | hellofx/src/main/java/org/openjfx/TabPrototypeController.java:369-371 | a name with no safe character becomes "song" |
| TabText.MidiToNoteIsNoteLabel | hellofx/src/main/java/org/openjfx/TabPrototypeController.java:382-387 | the index `(midi % 12 + 12) % 12` is in 0..11, and the tab browser's note name equals the analysis screen's note label for every MIDI number |
| TabText.NotesOf | hellofx/src/main/java/org/openjfx/TabPrototypeController.java:379 | one note name per string, in order |
| TabText.FormatTuningWords | hellofx/src/main/java/org/openjfx/TabPrototypeController.java:375-380 | a non-empty tuning prints as its note names separated by single spaces |
| TabText.FormatTuningRoundTrip | hellofx/src/main/java/org/openjfx/TabPrototypeController.java:375-380 | for MIDI numbers from 0 up, the tuning text reads back into the same MIDI numbers |
| TabText.SplitJoin | hellofx/src/main/java/org/openjfx/TabPrototypeController.java:379 | splitting at spaces undoes joining words that have no spaces |
| TabText.IndexOf | hellofx/src/main/java/org/openjfx/TabPrototypeController.java:281-285 | `indexOf` finds the first occurrence at or after the start position, or -1 when there is none |
| TabText.StateBounds | hellofx/src/main/java/org/openjfx/TabPrototypeController.java:280-289 | succeeds exactly when the page holds a marker, a '>' at or after it and a terminator after that; success gives the first marker, the first '>' after it and the first terminator after that; each error when its piece is missing |
| TabText.ExtractStatePayload | hellofx/src/main/java/org/openjfx/TabPrototypeController.java:280-291 | the payload is exactly the text strictly between that '>' and that terminator |
| TabText.PayloadHasNoTerminator | hellofx/src/main/java/org/openjfx/TabPrototypeController.java:286-290 | a payload never contains "</script>" |
| TabText.ExtractFromStateElement | hellofx/src/main/java/org/openjfx/TabPrototypeController.java:280-291 | a state element with '>'-free attributes yields its terminator-free payload unchanged |
| TabModel.Path | hellofx/src/main/java/org/openjfx/TabPrototypeController.java:297 | a field lookup yields the object's field value, or the missing node |
| TabModel.AsText | hellofx/src/main/java/org/openjfx/TabPrototypeController.java:297 | a text node's text, or "" for the missing node and containers |
| TabModel.FirstWithHash | hellofx/src/main/java/org/openjfx/TabPrototypeController.java:296-299 | the position of the first node with the hash, or none |
| TabModel.TrackNode | hellofx/src/main/java/org/openjfx/TabPrototypeController.java:294-302 | null for a null or non-array node or when nothing matches; otherwise a matching element |
| TabModel.FindTrackNode | hellofx/src/main/java/org/openjfx/TabPrototypeController.java:294-302 | the loop with its early return gives the first element with the hash |
| TabModel.AppendedTracksDoNotMatter | hellofx/src/main/java/org/openjfx/TabPrototypeController.java:296-299 | tracks after a match do not change which node is found |
| TabModel.TrackItem.constructor | hellofx/src/main/java/org/openjfx/TabPrototypeController.java:462-472 | the entry holds the given description and no download |
| TabModel.TrackItem.SetDownloadedFile | hellofx/src/main/java/org/openjfx/TabPrototypeController.java:519-521 | records the saved file and keeps the preview |
| TabModel.TrackItem.SetDownloadedPreview | hellofx/src/main/java/org/openjfx/TabPrototypeController.java:523-525 | records the preview and keeps the saved file |
| TabModel.DisplayLabelMeaning | hellofx/src/main/java/org/openjfx/TabPrototypeController.java:506-509 | the label starts with name, dash and instrument, and carries a readable " (Difficulty n)" exactly when the difficulty is non-negative |
| TabModel.BuildPreview | hellofx/src/main/java/org/openjfx/TabPrototypeController.java:333-343 | the appended lines equal the specified preview of the entry |
| TabModel.PreviewExtendsDescription | hellofx/src/main/java/org/openjfx/TabPrototypeController.java:333-343 | the description lines come first, and the preview grows beyond them exactly when a file or preview is recorded |
| TabModel.Unwrap | hellofx/src/main/java/org/openjfx/TabPrototypeController.java:389-403 | the result is the failure itself or its cause |
| TabModel.UnwrapPeelsOnlyWrappers | hellofx/src/main/java/org/openjfx/TabPrototypeController.java:389-403 | a failure changes exactly when it is a completion or execution wrapper with a cause |
| TabModel.UnwrapPeelsOneLayer | hellofx/src/main/java/org/openjfx/TabPrototypeController.java:389-403 | only one wrapper layer is removed |

## Left out

- Audio capture and the pitch and spectrum processors are not modelled: device selection, the YIN pitch detector, the spectral peak picker and the constant-Q transform are library code. Their results (pitch, confidence, peaks, constant-Q bins) are inputs.
- `hzToMidiRef`, `midiToFreqRef`, the cents computations, the chroma weight `log1p(m) / sqrt(max(1, f / 110))` and the `2^(offset/1200)` update are not computed. They are parameters, because they rest on `Math.log`, `Math.pow` and `Math.sqrt`.
- Doubles are reals: no rounding, overflow or NaN. The only exception is the A4 field's check, where NaN is modelled.
- Float confidences are compared with 0.85 and 0.75 as reals. No float lies strictly between a float constant and its decimal value, so the comparisons agree.
- Threads are not modelled: the calibration thread's 2-second sleep, `volatile`, `synchronized` and `Platform.runLater`. Calibration is modelled as start, collect and finish steps run in sequence.
- Presentation is not modelled: label text formatting with `String.format`, `updateTuningLabel`, `drawSpectrum`, `drawTuner`, `mapCentsToX`, `setupTunerUI` and button states. The views the handlers return stand for the labels they set.
- Analysis.PrimaryController.OnStartStop: the dispatcher's threads are not modelled. Starting succeeds or fails with a message, and stopping always returns to "Idle".
- The unused `slope` and the variance loop in `estimateGesture` are not modelled, because their results are never used.
- Analysis.PrimaryController.OnSetA4: the field's text is not parsed. Trimming the text and `Double.parseDouble` (with its "Infinity", hexadecimal and `d`/`f` suffix forms) are folded into the `parsed` argument, which is a finite number, NaN, an infinity, or nothing when parsing fails. The early return when `a4Field` is null (PrimaryController.java:359) is not modelled.
- Tuner.UpdateTuner: the "Auto" scan starts from the first string instead of `Double.MAX_VALUE`. For finite offsets the first string always replaces the start value, so the target is the same.
- Harmonics.HarmonicCount: the source skips notes that are the same object as the first note. Notes are distinct objects built one per pitch class, so the model skips by position.
- The tab browser's network and file I/O are not modelled: fetching songs and pages, writing files, `buildFilename` (it reads the clock) and `buildDownloadedPreview`. Parsing the payload with Jackson is not modelled either. JSON nodes are a datatype built by the caller, with integral numbers only.
- TabModel.BuildPreview: the description lines are appended as one piece, and the two optional sections one at a time.

## Findings

| source | as written | input that shows it | evidently intended | confidence | as-written member | corrected member |
|---|---|---|---|---|---|---|
| hellofx/src/main/java/org/openjfx/PrimaryController.java:361-363 | the A4 field is rejected only when `val < 400 \|\| val > 500` | the text "NaN": `Double.parseDouble` gives NaN, both comparisons are false, and NaN becomes the A4 reference | accept only numbers from 400 to 500 Hz | not executed | Analysis.NaNPassesAsWrittenCheck | Analysis.PrimaryController.OnSetA4 |
