/** Reference calibration: while calibrating, each confident pitch contributes its offset in
    cents from the nearest equal-tempered note; the offset applied to A4 afterwards is the
    median sample (the upper median for an even count), clamped to plus or minus 50 cents. */
module Calibration {
  import opened JavaLang
  import opened NoteNames
  import opened Sorting

  /** A pitch is collected only with at least this confidence (the float `0.85f`; for
      float confidences `c < 0.85f` and `c < 0.85` agree, no float lying between). */
  const SampleConfidence: real := 0.85

  /** The applied offset never exceeds this many cents either way. */
  const MaxOffsetCents: real := 50.0

  /** `maybeCollectCalibration`: the sample a pitch contributes, if any. None while not
      calibrating, below the confidence threshold, or when the nearest note's frequency is
      not positive; otherwise the offset in cents from that note. */
  function SampleOf(calibrating: bool, pitch: real, confidence: real, a4: real, conv: Conversions): (sample: Option<real>)
    ensures sample.Some? ==> calibrating && confidence >= SampleConfidence
  {
    if !calibrating || confidence < SampleConfidence then None
    else
      var targetHz := conv.midiToHz(conv.hzToMidi(pitch, a4), a4);
      if targetHz <= 0.0 then None else Some(conv.cents(pitch, targetHz))
  }

  /** `Math.max(-50, Math.min(50, x))` written as the two successive `if`s. */
  function Clamp(x: real): (r: real)
    ensures -MaxOffsetCents <= r <= MaxOffsetCents
    ensures -MaxOffsetCents <= x <= MaxOffsetCents ==> r == x
    ensures x > MaxOffsetCents ==> r == MaxOffsetCents
    ensures x < -MaxOffsetCents ==> r == -MaxOffsetCents
  {
    var m := if x > MaxOffsetCents then MaxOffsetCents else x;
    if m < -MaxOffsetCents then -MaxOffsetCents else m
  }

  /** The sorted samples' element at index `n / 2`. */
  function Median(samples: seq<real>): real
    requires samples != []
  {
    SortAscending(samples)[|samples| / 2]
  }

  /** `computeCalibrationOffset`: no offset without samples (the source's NaN), otherwise
      the clamped median. */
  function CalibrationOffset(samples: seq<real>): (offset: Option<real>)
    ensures offset.None? <==> samples == []
    ensures offset.Some? ==> -MaxOffsetCents <= offset.value <= MaxOffsetCents
  {
    if samples == [] then None else Some(Clamp(Median(samples)))
  }

  /** The median is one of the samples, more than half of the samples are at most it, and at
      least half are at least it. */
  lemma MedianIsMiddleSample(samples: seq<real>)
    requires samples != []
    ensures Median(samples) in multiset(samples)
    ensures CountAtMost(samples, Median(samples)) >= |samples| / 2 + 1
    ensures 2 * CountAtLeast(samples, Median(samples)) >= |samples|
  {
    OrderStatistic(samples, |samples| / 2);
  }

  /** The offset depends only on which samples were collected, not on their order. */
  lemma OffsetIgnoresOrder(a: seq<real>, b: seq<real>)
    requires multiset(a) == multiset(b)
    ensures CalibrationOffset(a) == CalibrationOffset(b)
  {
    assert |a| == |multiset(a)| == |multiset(b)| == |b|;
    AscendingPermutationUnique(SortAscending(a), SortAscending(b));
  }

  /** When every sample agrees, the offset is that sample, clamped. */
  lemma {:induction false} UnanimousSamples(samples: seq<real>, x: real)
    requires samples != [] && forall i :: 0 <= i < |samples| ==> samples[i] == x
    ensures CalibrationOffset(samples) == Some(Clamp(x))
  {
    var m := Median(samples);
    MedianIsMiddleSample(samples);
    var i :| 0 <= i < |samples| && samples[i] == m;
  }

  /** One wild sample among three cannot drag the offset: samples of 3, -2 and 400 cents
      give 3. */
  lemma OutlierIsIgnored(s: seq<real>)
    requires s == [3.0, -2.0, 400.0]
    ensures CalibrationOffset(s) == Some(3.0)
  {
    var t := [-2.0, 3.0, 400.0];
    assert multiset(s) == multiset(t);
    OffsetFromAnySortedCopy(s, t);
  }

  /** Any ascending arrangement of the samples yields the median, as `Arrays.sort` would. */
  lemma OffsetFromAnySortedCopy(samples: seq<real>, sorted: seq<real>)
    requires samples != [] && Ascending(sorted) && multiset(sorted) == multiset(samples)
    ensures |sorted| == |samples|
    ensures CalibrationOffset(samples) == Some(Clamp(sorted[|sorted| / 2]))
  {
    assert |sorted| == |multiset(sorted)| == |multiset(samples)| == |samples|;
    AscendingPermutationUnique(SortAscending(samples), sorted);
  }

  /** The new reference after calibration: `a4 * 2^(offset / 1200)`, or unchanged when no
      sample was collected. */
  function CalibratedA4(a4: real, samples: seq<real>, conv: Conversions): (r: real)
    ensures samples == [] ==> r == a4
    ensures samples != [] ==> r == conv.shiftByCents(a4, Clamp(Median(samples)))
  {
    match CalibrationOffset(samples)
    case None => a4
    case Some(offset) => conv.shiftByCents(a4, offset)
  }
}
