/** Chroma vectors: twelve pitch-class energies (index 0 is C). This module holds the
    per-frame accumulation over the constant-Q bins, the max-normalisation that ends both
    the per-frame computation and the smoothing, and the mean over the recent frames. */
module Chroma {
  import opened JavaLang

  /** Number of pitch classes, the length of every chroma vector. */
  const PitchClasses: nat := 12

  /** Lower and upper edge (Hz) of the band whose constant-Q bins feed the chroma. */
  const BandLowHz: real := 55.0
  const BandHighHz: real := 4000.0

  predicate IsChroma(v: seq<real>)
  {
    |v| == PitchClasses
  }

  predicate NonNegative(v: seq<real>)
  {
    forall i :: 0 <= i < |v| ==> v[i] >= 0.0
  }

  function Zeros(): (z: seq<real>)
    ensures IsChroma(z) && forall i :: 0 <= i < |z| ==> z[i] == 0.0
  {
    seq(PitchClasses, _ => 0.0)
  }

  /** Sum of all entries, added left to right (`for (double v : chroma) total += v`). */
  function Sum(v: seq<real>): real
  {
    if v == [] then 0.0 else Sum(v[..|v| - 1]) + v[|v| - 1]
  }

  /** The sum of a twelve-bin vector, written out. */
  lemma SumOfTwelve(v: seq<real>)
    requires |v| == 12
    ensures Sum(v) == v[0] + v[1] + v[2] + v[3] + v[4] + v[5] + v[6] + v[7] + v[8] + v[9] + v[10] + v[11]
  {
    forall k | 1 <= k <= 12 ensures Sum(v[..k]) == Sum(v[..k - 1]) + v[k - 1] {
      assert v[..k][..k - 1] == v[..k - 1];
    }
    assert v[..12] == v;
    assert v[..0] == [];
  }

  // ------------------------------------------------------------ normalisation

  /** The running maximum that starts from zero:
      `double max = 0; for (double v : out) max = Math.max(max, v)`. */
  function MaxFromZero(v: seq<real>): (m: real)
    ensures m >= 0.0
    ensures forall i :: 0 <= i < |v| ==> v[i] <= m
    ensures m == 0.0 || exists i :: 0 <= i < |v| && v[i] == m
  {
    if v == [] then 0.0
    else
      var m0 := MaxFromZero(v[..|v| - 1]);
      assert forall i :: 0 <= i < |v| - 1 ==> v[i] == v[..|v| - 1][i];
      Max(m0, v[|v| - 1])
  }

  function DivideAll(v: seq<real>, d: real): (w: seq<real>)
    requires d != 0.0
    ensures |w| == |v| && forall i :: 0 <= i < |v| ==> w[i] == v[i] / d
  {
    seq(|v|, i requires 0 <= i < |v| => v[i] / d)
  }

  /** Every bin divided by the largest one, when that is positive; otherwise unchanged. */
  function Normalized(v: seq<real>): (w: seq<real>)
    ensures |w| == |v|
  {
    var m := MaxFromZero(v);
    if m > 0.0 then DivideAll(v, m) else v
  }

  lemma DivAtMostOne(a: real, m: real)
    requires a <= m && m > 0.0
    ensures a / m <= 1.0
  {
    var q := a / m;
    assert q * m == a;
  }

  lemma DivNonNegative(a: real, m: real)
    requires a >= 0.0 && m > 0.0
    ensures a / m >= 0.0
  {
    var q := a / m;
    assert q * m == a;
  }

  lemma DivMonotone(a: real, b: real, d: real)
    requires d > 0.0 && a >= b
    ensures a / d >= b / d
  {
    var p, q := a / d, b / d;
    assert p * d == a && q * d == b;
    assert (p - q) * d == a - b;
  }

  lemma DivCancel(x: real, c: real, m: real)
    requires c > 0.0 && m > 0.0
    ensures (x / c) / (m / c) == x / m
  {
    var p, q := x / c, m / c;
    assert p * c == x && q * c == m;
    var r := p / q;
    assert r * q == p;
    assert r * m == r * q * c;
  }

  lemma MaxDivided(a: real, b: real, d: real)
    requires d > 0.0
    ensures Max(a / d, b / d) == Max(a, b) / d
  {
    if a >= b {
      DivMonotone(a, b, d);
    } else {
      DivMonotone(b, a, d);
    }
  }

  /** Normalising never leaves a bin above one, and with non-negative input every bin
      lands in [0, 1]. */
  lemma NormalizedRange(v: seq<real>)
    ensures forall i :: 0 <= i < |v| ==> Normalized(v)[i] <= 1.0 || MaxFromZero(v) == 0.0
    ensures NonNegative(v) ==> forall i :: 0 <= i < |v| ==> 0.0 <= Normalized(v)[i] <= 1.0
  {
    var m := MaxFromZero(v);
    if m > 0.0 {
      forall i | 0 <= i < |v| ensures Normalized(v)[i] <= 1.0 && (v[i] >= 0.0 ==> Normalized(v)[i] >= 0.0) {
        DivAtMostOne(v[i], m);
        if v[i] >= 0.0 { DivNonNegative(v[i], m); }
      }
    }
  }

  /** Dividing by a positive constant divides the running maximum by it. */
  lemma {:induction false} MaxOfDivided(v: seq<real>, d: real)
    requires d > 0.0
    ensures MaxFromZero(DivideAll(v, d)) == MaxFromZero(v) / d
  {
    if v != [] {
      var n := |v|;
      var w := DivideAll(v, d);
      assert w[..n - 1] == DivideAll(v[..n - 1], d);
      MaxOfDivided(v[..n - 1], d);
      MaxDivided(MaxFromZero(v[..n - 1]), v[n - 1], d);
    }
  }

  lemma DivSelf(m: real)
    requires m > 0.0
    ensures m / m == 1.0
  {
    var q := m / m;
    assert q * m == m * 1.0;
  }

  lemma DivPositive(a: real, m: real)
    requires a > 0.0 && m > 0.0
    ensures a / m > 0.0
  {
    var q := a / m;
    assert q * m == a;
  }

  /** Whenever some bin is positive the normalised vector peaks at exactly 1. */
  lemma NormalizedPeak(v: seq<real>)
    requires exists i :: 0 <= i < |v| && v[i] > 0.0
    ensures MaxFromZero(Normalized(v)) == 1.0
    ensures exists i :: 0 <= i < |v| && Normalized(v)[i] == 1.0
  {
    var k :| 0 <= k < |v| && v[k] > 0.0;
    var m := MaxFromZero(v);
    assert m >= v[k];
    var w := DivideAll(v, m);
    assert Normalized(v) == w;
    MaxOfDivided(v, m);
    DivSelf(m);
    assert MaxFromZero(w) == 1.0;
    var i :| 0 <= i < |w| && w[i] == MaxFromZero(w);
  }

  /** Re-normalising an already normalised vector leaves it unchanged. */
  lemma NormalizedIdempotent(v: seq<real>)
    ensures Normalized(Normalized(v)) == Normalized(v)
  {
    var m := MaxFromZero(v);
    if m > 0.0 {
      var i :| 0 <= i < |v| && v[i] == m;
      NormalizedPeak(v);
      var w := Normalized(v);
      assert forall j :: 0 <= j < |w| ==> w[j] / 1.0 == w[j];
      assert DivideAll(w, 1.0) == w;
    }
  }

  /** Normalisation ignores the overall gain: scaling an input that has some positive bin
      by any positive factor gives the same normalised vector. */
  lemma NormalizedIgnoresGain(v: seq<real>, c: real)
    requires c > 0.0
    requires exists i :: 0 <= i < |v| && v[i] > 0.0
    ensures Normalized(DivideAll(v, c)) == Normalized(v)
  {
    var k :| 0 <= k < |v| && v[k] > 0.0;
    var m := MaxFromZero(v);
    assert m >= v[k];
    MaxOfDivided(v, c);
    DivPositive(m, c);
    var u := DivideAll(v, c);
    assert Normalized(u) == DivideAll(u, m / c);
    assert Normalized(v) == DivideAll(v, m);
    forall i | 0 <= i < |v|
      ensures DivideAll(u, m / c)[i] == DivideAll(v, m)[i]
    {
      DivCancel(v[i], c, m);
    }
  }

  /** The normalisation tail shared by the per-frame chroma and the smoothed chroma:
      find the running maximum from zero, then divide every bin by it if it is positive. */
  method NormalizeInPlace(a: array<real>)
    modifies a
    ensures a[..] == Normalized(old(a[..]))
  {
    var max := 0.0;
    var i := 0;
    while i < a.Length
      invariant 0 <= i <= a.Length
      invariant max == MaxFromZero(a[..i])
    {
      assert a[..i + 1][..i] == a[..i];
      max := Max(max, a[i]);
      i := i + 1;
    }
    assert a[..a.Length] == a[..];
    if max > 0.0 {
      i := 0;
      while i < a.Length
        invariant 0 <= i <= a.Length
        invariant forall j :: 0 <= j < i ==> a[j] == old(a[j]) / max
        invariant forall j :: i <= j < a.Length ==> a[j] == old(a[j])
      {
        a[i] := a[i] / max;
        i := i + 1;
      }
    }
  }

  // ------------------------------------------------------------ per-frame chroma

  /** One constant-Q bin: its centre frequency and its weight, `log1p(magnitude)` damped by
      `1 / sqrt(max(1, hz / 110))` (the weight is computed outside this model). */
  datatype CqBin = CqBin(hz: real, weight: real)

  predicate InBand(hz: real)
  {
    !(hz < BandLowHz || hz > BandHighHz)
  }

  /** The pitch class a bin is folded into: `floorMod(hzToMidiRef(hz), 12)`. */
  function PitchClassOf(hz: real, hzToMidi: real -> int): (pc: int)
    ensures 0 <= pc < PitchClasses
  {
    FloorMod12(hzToMidi(hz))
  }

  /** The accumulation loop of the per-frame chroma, bin by bin. */
  function Accumulate(bins: seq<CqBin>, hzToMidi: real -> int): (acc: seq<real>)
    ensures IsChroma(acc)
  {
    if bins == [] then Zeros()
    else
      var acc := Accumulate(bins[..|bins| - 1], hzToMidi);
      var b := bins[|bins| - 1];
      if InBand(b.hz) then
        var pc := PitchClassOf(b.hz, hzToMidi);
        acc[pc := acc[pc] + b.weight]
      else acc
  }

  /** Reference definition: the energy of one pitch class is the sum of the weights of the
      in-band bins that fold into it. */
  function PitchClassEnergy(bins: seq<CqBin>, hzToMidi: real -> int, pc: int): real
  {
    if bins == [] then 0.0
    else
      var b := bins[|bins| - 1];
      PitchClassEnergy(bins[..|bins| - 1], hzToMidi, pc)
        + (if InBand(b.hz) && PitchClassOf(b.hz, hzToMidi) == pc then b.weight else 0.0)
  }

  /** The accumulation puts each in-band weight into its own pitch class and drops the
      out-of-band ones. */
  lemma {:induction false} AccumulateIsPitchClassEnergy(bins: seq<CqBin>, hzToMidi: real -> int, pc: int)
    requires 0 <= pc < PitchClasses
    ensures Accumulate(bins, hzToMidi)[pc] == PitchClassEnergy(bins, hzToMidi, pc)
  {
    if bins != [] {
      AccumulateIsPitchClassEnergy(bins[..|bins| - 1], hzToMidi, pc);
    }
  }

  /** With non-negative weights every pitch-class energy is non-negative. */
  lemma {:induction false} AccumulateNonNegative(bins: seq<CqBin>, hzToMidi: real -> int)
    requires forall k :: 0 <= k < |bins| ==> bins[k].weight >= 0.0
    ensures NonNegative(Accumulate(bins, hzToMidi))
  {
    if bins != [] {
      AccumulateNonNegative(bins[..|bins| - 1], hzToMidi);
    }
  }

  /** `computeChroma`: without a constant-Q front end, twelve zeros; otherwise the
      accumulated pitch-class energies, normalised to a peak of 1. */
  method ComputeChroma(bins: Option<seq<CqBin>>, hzToMidi: real -> int) returns (chroma: seq<real>)
    ensures IsChroma(chroma)
    ensures bins.None? ==> chroma == Zeros()
    ensures bins.Some? ==> chroma == Normalized(Accumulate(bins.value, hzToMidi))
  {
    var out := new real[PitchClasses](_ => 0.0);
    if bins.None? {
      assert out[..] == Zeros();
      return out[..];
    }
    var bs := bins.value;
    var i := 0;
    assert out[..] == Zeros();
    while i < |bs|
      invariant 0 <= i <= |bs|
      invariant out[..] == Accumulate(bs[..i], hzToMidi)
    {
      var f := bs[i].hz;
      assert bs[..i + 1][..i] == bs[..i];
      if !(f < BandLowHz || f > BandHighHz) {
        var pc := FloorMod12(hzToMidi(f));
        out[pc] := out[pc] + bs[i].weight;
      }
      i := i + 1;
    }
    assert bs[..|bs|] == bs;
    NormalizeInPlace(out);
    chroma := out[..];
  }

  // ------------------------------------------------------------ smoothing

  predicate AllChroma(frames: seq<seq<real>>)
  {
    forall k :: 0 <= k < |frames| ==> IsChroma(frames[k])
  }

  function AddFrames(a: seq<real>, b: seq<real>): (c: seq<real>)
    requires IsChroma(a) && IsChroma(b)
    ensures IsChroma(c) && forall i :: 0 <= i < PitchClasses ==> c[i] == a[i] + b[i]
  {
    seq(PitchClasses, i requires 0 <= i < PitchClasses => a[i] + b[i])
  }

  /** Bin-wise sum of the frames, oldest first. */
  function SumFrames(frames: seq<seq<real>>): (s: seq<real>)
    requires AllChroma(frames)
    ensures IsChroma(s)
  {
    if frames == [] then Zeros()
    else AddFrames(SumFrames(frames[..|frames| - 1]), frames[|frames| - 1])
  }

  /** The bin-wise mean of a non-empty history. */
  function MeanFrame(frames: seq<seq<real>>): (m: seq<real>)
    requires AllChroma(frames) && frames != []
    ensures IsChroma(m)
  {
    DivideAll(SumFrames(frames), |frames| as real)
  }

  /** The smoothed chroma `averageChroma` returns: twelve zeros for an empty history,
      otherwise the normalised mean of the frames. */
  function Smoothed(frames: seq<seq<real>>): (s: seq<real>)
    requires AllChroma(frames)
    ensures IsChroma(s)
  {
    if frames == [] then Zeros() else Normalized(MeanFrame(frames))
  }

  /** With non-negative frames a summed bin is non-negative, and it is positive exactly
      when some frame has that bin positive. */
  lemma {:induction false} SumFramesSign(frames: seq<seq<real>>, i: int)
    requires AllChroma(frames) && 0 <= i < PitchClasses
    requires forall k :: 0 <= k < |frames| ==> NonNegative(frames[k])
    ensures SumFrames(frames)[i] >= 0.0
    ensures SumFrames(frames)[i] > 0.0 <==> exists k :: 0 <= k < |frames| && frames[k][i] > 0.0
  {
    if frames != [] {
      var n := |frames|;
      var init := frames[..n - 1];
      assert forall k :: 0 <= k < n - 1 ==> init[k] == frames[k];
      SumFramesSign(init, i);
      if exists k :: 0 <= k < n && frames[k][i] > 0.0 {
        var k :| 0 <= k < n && frames[k][i] > 0.0;
        if k < n - 1 {
          assert init[k][i] > 0.0;
        }
      }
    }
  }

  /** The smoothed chroma of non-negative frames has every bin in [0, 1], and its largest
      bin is exactly 1 as soon as any frame has a positive bin. */
  lemma SmoothedRange(frames: seq<seq<real>>)
    requires AllChroma(frames)
    requires forall k :: 0 <= k < |frames| ==> NonNegative(frames[k])
    ensures forall i :: 0 <= i < PitchClasses ==> 0.0 <= Smoothed(frames)[i] <= 1.0
    ensures (exists k, i :: 0 <= k < |frames| && 0 <= i < PitchClasses && frames[k][i] > 0.0)
              ==> MaxFromZero(Smoothed(frames)) == 1.0
  {
    if frames != [] {
      var mean := MeanFrame(frames);
      var n := |frames| as real;
      forall i | 0 <= i < PitchClasses ensures mean[i] >= 0.0 {
        SumFramesSign(frames, i);
        DivNonNegative(SumFrames(frames)[i], n);
      }
      NormalizedRange(mean);
      if exists k, i :: 0 <= k < |frames| && 0 <= i < PitchClasses && frames[k][i] > 0.0 {
        var k, i :| 0 <= k < |frames| && 0 <= i < PitchClasses && frames[k][i] > 0.0;
        SumFramesSign(frames, i);
        assert mean[i] > 0.0;
        NormalizedPeak(mean);
      }
    }
  }

  /** `n` copies of one frame sum to `n` times that frame. */
  lemma {:induction false} SumOfCopies(frames: seq<seq<real>>, f: seq<real>)
    requires IsChroma(f) && forall k :: 0 <= k < |frames| ==> frames[k] == f
    ensures AllChroma(frames)
    ensures forall i :: 0 <= i < PitchClasses ==> SumFrames(frames)[i] == (|frames| as real) * f[i]
  {
    if frames != [] {
      var init := frames[..|frames| - 1];
      SumOfCopies(init, f);
    }
  }

  /** A steady input: when every remembered frame is the same chroma, smoothing returns
      that chroma normalised (the frame itself, if it was already normalised). */
  lemma SteadyInputSmoothsToItself(frames: seq<seq<real>>, f: seq<real>)
    requires IsChroma(f) && frames != [] && forall k :: 0 <= k < |frames| ==> frames[k] == f
    ensures AllChroma(frames)
    ensures Smoothed(frames) == Normalized(f)
  {
    SumOfCopies(frames, f);
    var n := |frames| as real;
    forall i | 0 <= i < PitchClasses ensures MeanFrame(frames)[i] == f[i] {
      assert MeanFrame(frames)[i] == SumFrames(frames)[i] / n;
      assert SumFrames(frames)[i] == n * f[i];
      assert (n * f[i]) / n == f[i];
    }
    assert MeanFrame(frames) == f;
  }
}
