/** Choosing the notes of the polyphonic display: the pitch classes ranked by smoothed chroma
    energy (strongest first, a stable sort, so equal energies keep C-to-B order), and for a
    pitch class the frequency of the strongest spectral peak that folds into it. */
module NoteSelector {
  import opened JavaLang

  // ------------------------------------------------------------ ranking pitch classes

  predicate IsPitchClassList(chroma: seq<real>, s: seq<int>)
  {
    |chroma| == 12 && forall i :: 0 <= i < |s| ==> 0 <= s[i] < 12
  }

  /** `a` sorts before `b`: more energy, or equal energy and a lower pitch class (the sort
      is by descending `chroma[pc]` and keeps the original order of equal elements). */
  predicate Before(chroma: seq<real>, a: int, b: int)
    requires |chroma| == 12 && 0 <= a < 12 && 0 <= b < 12
  {
    chroma[a] > chroma[b] || (chroma[a] == chroma[b] && a < b)
  }

  predicate Ranked(chroma: seq<real>, s: seq<int>)
    requires IsPitchClassList(chroma, s)
  {
    forall i, j :: 0 <= i < j < |s| ==> Before(chroma, s[i], s[j])
  }

  /** Puts `p` in front of the first element it sorts before. */
  function InsertRanked(chroma: seq<real>, p: int, s: seq<int>): (r: seq<int>)
    requires IsPitchClassList(chroma, s) && 0 <= p < 12
    ensures IsPitchClassList(chroma, r)
    ensures multiset(r) == multiset(s) + multiset{p} && |r| == |s| + 1
  {
    if s == [] then [p]
    else if Before(chroma, p, s[0]) then [p] + s
    else
      assert s == [s[0]] + s[1..];
      [s[0]] + InsertRanked(chroma, p, s[1..])
  }

  lemma {:induction false} InsertRankedKeepsRanking(chroma: seq<real>, p: int, s: seq<int>)
    requires IsPitchClassList(chroma, s) && 0 <= p < 12 && p !in s
    requires Ranked(chroma, s)
    ensures Ranked(chroma, InsertRanked(chroma, p, s))
  {
    var r := InsertRanked(chroma, p, s);
    if s == [] {
    } else if Before(chroma, p, s[0]) {
      forall i, j | 0 <= i < j < |r| ensures Before(chroma, r[i], r[j]) {
        if i == 0 && j > 1 { assert Before(chroma, s[0], s[j - 1]); }
      }
    } else {
      var rest := InsertRanked(chroma, p, s[1..]);
      assert p !in s[1..];
      InsertRankedKeepsRanking(chroma, p, s[1..]);
      assert r == [s[0]] + rest;
      assert Before(chroma, s[0], p) by { assert s[0] != p; }
      InsertRankedAfter(chroma, p, s[1..], s[0]);
      forall i, j | 0 <= i < j < |r| ensures Before(chroma, r[i], r[j]) {
        if i > 0 {
          assert r[i] == rest[i - 1] && r[j] == rest[j - 1];
        } else {
          assert r[j] == rest[j - 1];
        }
      }
    }
  }

  /** A pitch class that sorts before `p` and before every element of `s` sorts before every
      element of the result of inserting. */
  lemma {:induction false} InsertRankedAfter(chroma: seq<real>, p: int, s: seq<int>, a: int)
    requires IsPitchClassList(chroma, s) && 0 <= p < 12 && 0 <= a < 12
    requires Before(chroma, a, p) && forall k :: 0 <= k < |s| ==> Before(chroma, a, s[k])
    ensures forall k :: 0 <= k < |InsertRanked(chroma, p, s)| ==> Before(chroma, a, InsertRanked(chroma, p, s)[k])
  {
    if s != [] && !Before(chroma, p, s[0]) {
      InsertRankedAfter(chroma, p, s[1..], a);
    }
  }

  /** Sorts a list of distinct pitch classes into ranking order. */
  function SortRanked(chroma: seq<real>, s: seq<int>): (r: seq<int>)
    requires IsPitchClassList(chroma, s)
    requires forall i, j :: 0 <= i < j < |s| ==> s[i] != s[j]
    ensures IsPitchClassList(chroma, r) && Ranked(chroma, r)
    ensures multiset(r) == multiset(s) && |r| == |s|
  {
    if s == [] then []
    else
      assert s == [s[0]] + s[1..];
      var rest := SortRanked(chroma, s[1..]);
      assert s[0] !in multiset(s[1..]);
      InsertRankedKeepsRanking(chroma, s[0], rest);
      InsertRanked(chroma, s[0], rest)
  }

  /** The pitch classes `0 .. n-1` in ascending order, as the list is first filled. */
  function UpTo(n: nat): (s: seq<int>)
    ensures |s| == n && forall i :: 0 <= i < n ==> s[i] == i
  {
    if n == 0 then [] else UpTo(n - 1) + [n - 1]
  }

  /** All twelve pitch classes, strongest first. */
  function Ranking(chroma: seq<real>): (r: seq<int>)
    requires |chroma| == 12
    ensures IsPitchClassList(chroma, r) && Ranked(chroma, r)
    ensures multiset(r) == multiset(UpTo(12)) && |r| == 12
  {
    SortRanked(chroma, UpTo(12))
  }

  /** `topPitchClasses(chroma, k)`: the first `k` of the ranking (all twelve when `k` is at
      least 12). */
  function TopPitchClasses(chroma: seq<real>, k: nat): (top: seq<int>)
    requires |chroma| == 12
    ensures |top| == if k < 12 then k else 12
    ensures top == Ranking(chroma)[..|top|]
  {
    var r := Ranking(chroma);
    if k < |r| then r[..k] else r
  }

  /** A ranked list of pitch classes has no repeats. */
  lemma RankedIsDistinct(chroma: seq<real>, s: seq<int>)
    requires IsPitchClassList(chroma, s) && Ranked(chroma, s)
    ensures forall i, j :: 0 <= i < j < |s| ==> s[i] != s[j]
  {
  }

  /** Every pitch class 0..11 appears in the ranking. */
  lemma RankingHasEveryPitchClass(chroma: seq<real>, pc: int)
    requires |chroma| == 12 && 0 <= pc < 12
    ensures pc in Ranking(chroma)
  {
    assert UpTo(12)[pc] == pc;
    assert pc in multiset(UpTo(12));
  }

  /** The selected pitch classes are distinct, strongest first, and each carries at least as
      much energy as any pitch class left out; a left-out class with the same energy as a
      selected one is a higher pitch class. */
  lemma TopPitchClassesAreStrongest(chroma: seq<real>, k: nat)
    requires |chroma| == 12
    ensures var top := TopPitchClasses(chroma, k);
            (forall i, j :: 0 <= i < j < |top| ==> top[i] != top[j] && chroma[top[i]] >= chroma[top[j]])
            && forall i, q :: 0 <= i < |top| && 0 <= q < 12 && q !in top ==>
                 chroma[top[i]] > chroma[q] || (chroma[top[i]] == chroma[q] && top[i] < q)
  {
    var r := Ranking(chroma);
    var top := TopPitchClasses(chroma, k);
    RankedIsDistinct(chroma, r);
    forall i, q | 0 <= i < |top| && 0 <= q < 12 && q !in top
      ensures Before(chroma, top[i], q)
    {
      RankingHasEveryPitchClass(chroma, q);
      var j :| 0 <= j < 12 && r[j] == q;
      assert forall m :: 0 <= m < |top| ==> top[m] == r[m];
      assert j >= |top|;
    }
  }

  lemma TailRanked(chroma: seq<real>, s: seq<int>)
    requires IsPitchClassList(chroma, s) && Ranked(chroma, s) && s != []
    ensures IsPitchClassList(chroma, s[1..]) && Ranked(chroma, s[1..])
  {
    forall p, q | 0 <= p < q < |s| - 1 ensures Before(chroma, s[1..][p], s[1..][q]) {
      assert Before(chroma, s[p + 1], s[q + 1]);
    }
  }

  /** The ranking is the only ordering of the twelve pitch classes that sorts strictly by
      `Before`, so any stable sort by descending energy yields exactly `Ranking`. */
  lemma MultisetOfTail(s: seq<int>)
    requires s != []
    ensures multiset(s[1..]) == multiset(s) - multiset{s[0]}
  {
    assert s == [s[0]] + s[1..];
  }

  /** Two rankings of the same pitch classes start with the same one. */
  lemma SameFirst(chroma: seq<real>, a: seq<int>, b: seq<int>)
    requires IsPitchClassList(chroma, a) && IsPitchClassList(chroma, b)
    requires Ranked(chroma, a) && Ranked(chroma, b)
    requires multiset(a) == multiset(b) && a != [] && b != []
    ensures a[0] == b[0]
  {
    assert a[0] in multiset(b) && b[0] in multiset(a);
    var j :| 0 <= j < |b| && b[j] == a[0];
    var i :| 0 <= i < |a| && a[i] == b[0];
  }

  /** The ranking is the only ordering of the twelve pitch classes that sorts strictly by
      `Before`, so any stable sort by descending energy yields exactly `Ranking`. */
  lemma {:induction false} RankingUnique(chroma: seq<real>, a: seq<int>, b: seq<int>)
    requires IsPitchClassList(chroma, a) && IsPitchClassList(chroma, b)
    requires Ranked(chroma, a) && Ranked(chroma, b)
    requires multiset(a) == multiset(b)
    ensures a == b
  {
    assert |a| == |multiset(a)| == |multiset(b)| == |b|;
    if a != [] {
      SameFirst(chroma, a, b);
      MultisetOfTail(a);
      MultisetOfTail(b);
      TailRanked(chroma, a);
      TailRanked(chroma, b);
      RankingUnique(chroma, a[1..], b[1..]);
    }
  }

  // ------------------------------------------------------------ peak per pitch class

  /** One spectral peak: its estimated frequency and magnitude. */
  datatype SpectralPeak = SpectralPeak(hz: real, magnitude: real)

  /** The running best magnitude starts here, so a peak must be louder to count. */
  const NoMagnitude: real := -1000000000.0

  predicate FoldsInto(p: SpectralPeak, pc: int, hzToMidi: real -> int)
  {
    FloorMod12(hzToMidi(p.hz)) == pc
  }

  /** The index of the first loudest peak that folds into `pc`, if any is louder than
      `NoMagnitude`. */
  function BestPeakIndex(peaks: seq<SpectralPeak>, pc: int, hzToMidi: real -> int): (best: Option<nat>)
    ensures best.Some? ==>
              best.value < |peaks| && FoldsInto(peaks[best.value], pc, hzToMidi)
              && peaks[best.value].magnitude > NoMagnitude
              && (forall j :: 0 <= j < |peaks| && FoldsInto(peaks[j], pc, hzToMidi) ==>
                    peaks[j].magnitude <= peaks[best.value].magnitude)
              && (forall j :: 0 <= j < best.value && FoldsInto(peaks[j], pc, hzToMidi) ==>
                    peaks[j].magnitude < peaks[best.value].magnitude)
    ensures best.None? ==>
              forall j :: 0 <= j < |peaks| && FoldsInto(peaks[j], pc, hzToMidi) ==> peaks[j].magnitude <= NoMagnitude
  {
    if peaks == [] then None
    else
      var init := peaks[..|peaks| - 1];
      var b := BestPeakIndex(init, pc, hzToMidi);
      assert forall j :: 0 <= j < |init| ==> init[j] == peaks[j];
      var last := peaks[|peaks| - 1];
      var bestMag := if b.Some? then init[b.value].magnitude else NoMagnitude;
      if FoldsInto(last, pc, hzToMidi) && last.magnitude > bestMag then Some(|peaks| - 1) else b
  }

  /** The sentinel returned when no peak matches. */
  const NoPeakHz: real := -1.0

  /** The frequency `findPeakNearPitchClass` reports: that of the loudest matching peak, or
      the sentinel -1 when there is none (or no peak list at all). */
  function PeakHzOf(peaks: Option<seq<SpectralPeak>>, pc: int, hzToMidi: real -> int): real
  {
    if peaks.None? then NoPeakHz
    else
      match BestPeakIndex(peaks.value, pc, hzToMidi)
      case None => NoPeakHz
      case Some(i) => peaks.value[i].hz
  }

  /** `findPeakNearPitchClass`, with the source's loop. */
  method FindPeakNearPitchClass(peaks: Option<seq<SpectralPeak>>, pc: int, hzToMidi: real -> int)
    returns (bestHz: real)
    ensures peaks.None? ==> bestHz == NoPeakHz
    ensures peaks.Some? ==>
              match BestPeakIndex(peaks.value, pc, hzToMidi)
              case None => bestHz == NoPeakHz
              case Some(i) => bestHz == peaks.value[i].hz
    ensures bestHz == PeakHzOf(peaks, pc, hzToMidi)
  {
    bestHz := -1.0;
    var bestMag := NoMagnitude;
    if peaks.None? {
      return -1.0;
    }
    var ps := peaks.value;
    var i := 0;
    while i < |ps|
      invariant 0 <= i <= |ps|
      invariant var b := BestPeakIndex(ps[..i], pc, hzToMidi);
                match b
                case None => bestHz == -1.0 && bestMag == NoMagnitude
                case Some(k) => bestHz == ps[k].hz && bestMag == ps[k].magnitude
    {
      assert ps[..i + 1][..i] == ps[..i];
      assert forall j :: 0 <= j < i ==> ps[..i][j] == ps[j];
      var p := ps[i];
      var midi := hzToMidi(p.hz);
      if FloorMod12(midi) == pc {
        if p.magnitude > bestMag {
          bestMag := p.magnitude;
          bestHz := p.hz;
        }
      }
      i := i + 1;
    }
    assert ps[..|ps|] == ps;
  }
}
