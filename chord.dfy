/** Chord recognition from a smoothed chroma vector: every root is scored under five chord
    hypotheses (power chord, major, minor, dominant seventh, minor seventh); each root keeps
    its best hypothesis, with a bias toward the power chord when a seventh only just wins;
    the best root overall is reported if its score is high enough. Also the simpler
    triad matcher over a set of detected notes. */
module ChordRecognizer {
  import opened JavaLang
  import NoteNames
  import Chroma

  datatype Kind = Power | Major | Minor | Dom7 | Min7

  /** What the recogniser reports: no energy at all ("--"), nothing convincing
      ("Uncertain"), or a chord named by its root pitch class and kind. */
  datatype Guess = NoEnergy | Uncertain | Chord(root: int, kind: Kind)

  const EnergyFloor: real := 0.000001
  /** The score a hypothesis gets when its gate (third or seventh present) fails. */
  const Unscored: real := -1000000000.0
  const ThirdRel: real := 0.35
  const SeventhRel: real := 0.35
  const Complexity: real := 0.10
  /** A seventh chord must beat the power chord of its root by this much. */
  const SeventhMargin: real := 0.12
  /** Scores below this are reported as "Uncertain". */
  const MinScore: real := 0.20

  function Suffix(k: Kind): string
  {
    match k
    case Power => " 5"
    case Major => " Maj"
    case Minor => " Min"
    case Dom7 => " 7"
    case Min7 => " m7"
  }

  predicate ValidGuess(g: Guess)
  {
    g.Chord? ==> 0 <= g.root < 12
  }

  /** The text shown in the chord label. */
  function Label(g: Guess): (text: string)
    requires ValidGuess(g)
    ensures |text| >= 2
  {
    match g
    case NoEnergy => "--"
    case Uncertain => "Uncertain"
    case Chord(root, kind) => NoteNames.Names[root] + Suffix(kind)
  }

  function ParseSuffix(s: string): Option<Kind>
  {
    if s == " 5" then Some(Power)
    else if s == " Maj" then Some(Major)
    else if s == " Min" then Some(Minor)
    else if s == " 7" then Some(Dom7)
    else if s == " m7" then Some(Min7)
    else None
  }

  /** Reads a chord label back. */
  function ParseLabel(text: string): Option<Guess>
  {
    if text == "--" then Some(NoEnergy)
    else if text == "Uncertain" then Some(Uncertain)
    else
      var n := if |text| >= 2 && text[1] == '#' then 2 else 1;
      if |text| < n then None
      else
        match NoteNames.NameIndex(text[..n])
        case None => None
        case Some(root) =>
          match ParseSuffix(text[n..])
          case None => None
          case Some(kind) => Some(Chord(root, kind))
  }

  /** Distinct guesses are shown as distinct labels: the label reads back as the guess. */
  lemma LabelRoundTrip(g: Guess)
    requires ValidGuess(g)
    ensures ParseLabel(Label(g)) == Some(g)
  {
    if g.Chord? {
      NoteNames.NamesShapeAndDistinct();
      var name := NoteNames.Names[g.root];
      var text := Label(g);
      var n := if |text| >= 2 && text[1] == '#' then 2 else 1;
      assert text[0] != '-' && text[0] != 'U';
      assert n == |name| by {
        if |name| == 1 { assert text[1] == ' '; }
      }
      assert text[..n] == name;
      assert text[n..] == Suffix(g.kind);
    }
  }

  // ------------------------------------------------------------ scoring one root

  /** The five chroma energies read for one root: the root, its fifth, major third, minor
      third and minor seventh. */
  datatype RootEnergies = RootEnergies(r: real, fifth: real, majorThird: real, minorThird: real, seventh: real)

  function EnergiesAt(chroma: seq<real>, root: int): RootEnergies
    requires |chroma| == 12 && 0 <= root < 12
  {
    RootEnergies(chroma[root], chroma[(root + 7) % 12], chroma[(root + 4) % 12],
                 chroma[(root + 3) % 12], chroma[(root + 10) % 12])
  }

  /** The reference level the third and the seventh are compared with. */
  function Base(e: RootEnergies): (b: real)
    ensures b >= EnergyFloor && b >= e.r && b >= e.fifth
  {
    Max(EnergyFloor, Max(e.r, e.fifth))
  }

  predicate HasMajorThird(e: RootEnergies) { e.majorThird >= ThirdRel * Base(e) }
  predicate HasMinorThird(e: RootEnergies) { e.minorThird >= ThirdRel * Base(e) }
  predicate HasSeventh(e: RootEnergies) { e.seventh >= SeventhRel * Base(e) }

  /** `weighted * (0.6 + 0.4 * explained / total)`: the weighted energy, boosted by the
      share of the total energy the hypothesis explains. */
  function Fit(weighted: real, explained: real, total: real): real
    requires total > 0.0
  {
    weighted * (0.6 + 0.4 * (explained / total))
  }

  function PowerScore(e: RootEnergies, total: real): real
    requires total > 0.0
  {
    Fit(1.00 * e.r + 0.95 * e.fifth, e.r + e.fifth, total)
      - 0.05 * Max(0.0, Max(e.majorThird, e.minorThird) - 0.25 * Base(e))
  }

  function Score(e: RootEnergies, total: real, k: Kind): real
    requires total > 0.0
  {
    match k
    case Power => PowerScore(e, total)
    case Major =>
      if HasMajorThird(e) then
        Fit(1.0 * e.r + 0.85 * e.majorThird + 0.90 * e.fifth, e.r + e.fifth + e.majorThird, total)
          - Complexity * (3 - 2) as real
      else Unscored
    case Minor =>
      if HasMinorThird(e) then
        Fit(1.0 * e.r + 0.85 * e.minorThird + 0.90 * e.fifth, e.r + e.fifth + e.minorThird, total)
          - Complexity * (3 - 2) as real
      else Unscored
    case Dom7 =>
      if HasMajorThird(e) && HasSeventh(e) then
        Fit(1.0 * e.r + 0.80 * e.majorThird + 0.90 * e.fifth + 0.60 * e.seventh,
            e.r + e.fifth + e.majorThird + e.seventh, total)
          - Complexity * (4 - 2) as real
      else Unscored
    case Min7 =>
      if HasMinorThird(e) && HasSeventh(e) then
        Fit(1.0 * e.r + 0.80 * e.minorThird + 0.90 * e.fifth + 0.60 * e.seventh,
            e.r + e.fifth + e.minorThird + e.seventh, total)
          - Complexity * (4 - 2) as real
      else Unscored
  }

  /** The condition under which a hypothesis is scored at all: a third for the triads,
      a third and the seventh for the seventh chords. */
  predicate Gate(e: RootEnergies, k: Kind)
  {
    match k
    case Power => true
    case Major => HasMajorThird(e)
    case Minor => HasMinorThird(e)
    case Dom7 => HasMajorThird(e) && HasSeventh(e)
    case Min7 => HasMinorThird(e) && HasSeventh(e)
  }

  /** A hypothesis whose gate fails is scored exactly `Unscored`. */
  lemma UngatedIsUnscored(e: RootEnergies, total: real, k: Kind)
    requires total > 0.0 && !Gate(e, k)
    ensures Score(e, total, k) == Unscored
  {
  }

  /** Hypotheses in the order the source lists them. */
  const Kinds: seq<Kind> := [Power, Major, Minor, Dom7, Min7]

  function Scores(e: RootEnergies, total: real): (s: seq<real>)
    requires total > 0.0
    ensures |s| == 5 && forall i :: 0 <= i < 5 ==> s[i] == Score(e, total, Kinds[i])
  {
    [Score(e, total, Power), Score(e, total, Major), Score(e, total, Minor),
     Score(e, total, Dom7), Score(e, total, Min7)]
  }

  /** Index of the first largest element (a later one replaces it only when strictly larger). */
  function ArgMaxFirst(s: seq<real>): (i: nat)
    requires s != []
    ensures i < |s|
    ensures forall j :: 0 <= j < |s| ==> s[j] <= s[i]
    ensures forall j :: 0 <= j < i ==> s[j] < s[i]
  {
    if |s| == 1 then 0
    else
      var i := ArgMaxFirst(s[..|s| - 1]);
      assert forall j :: 0 <= j < |s| - 1 ==> s[..|s| - 1][j] == s[j];
      if s[|s| - 1] > s[i] then |s| - 1 else i
  }

  /** The hypothesis one root settles on, and its score. */
  datatype Choice = Choice(kind: Kind, score: real)

  /** The demotion rule: a seventh chord that wins by less than the margin over a scored
      power chord gives way to the power chord. */
  predicate Demoted(winner: Kind, best: real, power: real)
  {
    (winner == Dom7 || winner == Min7) && power > -100000000.0 && best - power < SeventhMargin
  }

  function RootChoice(chroma: seq<real>, total: real, root: int): Choice
    requires |chroma| == 12 && 0 <= root < 12 && total > 0.0
  {
    var e := EnergiesAt(chroma, root);
    var s := Scores(e, total);
    var i := ArgMaxFirst(s);
    if Demoted(Kinds[i], s[i], s[0]) then Choice(Power, s[0]) else Choice(Kinds[i], s[i])
  }

  /** What roots `0 .. n - 1` settle on, C first. */
  function RootChoices(chroma: seq<real>, total: real, n: int): (cs: seq<Choice>)
    requires |chroma| == 12 && total > 0.0 && 0 <= n <= 12
    ensures |cs| == n
  {
    if n == 0 then [] else RootChoices(chroma, total, n - 1) + [RootChoice(chroma, total, n - 1)]
  }

  lemma {:induction false} RootChoicesAt(chroma: seq<real>, total: real, n: int, r: int)
    requires |chroma| == 12 && total > 0.0 && 0 <= r < n <= 12
    ensures RootChoices(chroma, total, n)[r] == RootChoice(chroma, total, r)
  {
    if r < n - 1 {
      RootChoicesAt(chroma, total, n - 1, r);
    }
  }

  lemma AllRootChoices(chroma: seq<real>, total: real)
    requires |chroma| == 12 && total > 0.0
    ensures forall r :: 0 <= r < 12 ==> RootChoices(chroma, total, 12)[r] == RootChoice(chroma, total, r)
  {
    forall r | 0 <= r < 12 ensures RootChoices(chroma, total, 12)[r] == RootChoice(chroma, total, r) {
      RootChoicesAt(chroma, total, 12, r);
    }
  }

  /** The running best over the roots' choices, starting from `Unscored` and replaced only
      by a strictly larger score. */
  datatype Best = Best(score: real, pick: Option<Choice>, root: int)

  function BestOf(cs: seq<Choice>): (b: Best)
    ensures b.pick.None? ==> b.score == Unscored
    ensures b.pick.Some? ==> 0 <= b.root < |cs| && b.pick.value == cs[b.root]
                             && b.score == b.pick.value.score
  {
    if cs == [] then Best(Unscored, None, 0)
    else
      var b := BestOf(cs[..|cs| - 1]);
      var c := cs[|cs| - 1];
      if c.score > b.score then Best(c.score, Some(c), |cs| - 1) else b
  }

  /** The guess for a chroma vector. */
  function GuessOf(chroma: seq<real>): (g: Guess)
    requires |chroma| == 12
    ensures ValidGuess(g)
  {
    var total := Chroma.Sum(chroma);
    if total <= EnergyFloor then NoEnergy
    else
      var b := BestOf(RootChoices(chroma, total, 12));
      if b.score < MinScore then Uncertain
      else Chord(b.root, b.pick.value.kind)
  }

  // ------------------------------------------------------------ the method

  /** Label of the running best, as the method keeps it in `bestLabel`. */
  function BestLabel(b: Best): string
    requires b.pick.Some? ==> 0 <= b.root < 12
  {
    match b.pick
    case None => "--"
    case Some(c) => Label(Chord(b.root, c.kind))
  }

  /** The body of the root loop: score the five hypotheses, keep the first largest, then
      apply the demotion rule. */
  method ChooseForRoot(chroma: seq<real>, total: real, root: int) returns (kindIndex: int, score: real)
    requires |chroma| == 12 && 0 <= root < 12 && total > 0.0
    ensures 0 <= kindIndex < 5
    ensures RootChoice(chroma, total, root) == Choice(Kinds[kindIndex], score)
  {
    var e := EnergiesAt(chroma, root);
    var scores := Scores(e, total);
    var bestIdx := 0;
    var bestLocal := scores[0];
    var k := 1;
    while k < 5
      invariant 1 <= k <= 5
      invariant bestIdx == ArgMaxFirst(scores[..k]) && bestLocal == scores[bestIdx]
    {
      assert scores[..k + 1][..k] == scores[..k];
      if scores[k] > bestLocal {
        bestLocal := scores[k];
        bestIdx := k;
      }
      k := k + 1;
    }
    assert scores[..5] == scores;
    var powerScore := scores[0];
    if (bestIdx == 3 || bestIdx == 4) && powerScore > -100000000.0 && bestLocal - powerScore < SeventhMargin {
      bestIdx := 0;
      bestLocal := powerScore;
    }
    return bestIdx, bestLocal;
  }

  /** The first loop of `guessChordFromChroma`: the sum of the bins. */
  method TotalEnergy(chroma: seq<real>) returns (total: real)
    ensures total == Chroma.Sum(chroma)
  {
    total := 0.0;
    var i := 0;
    while i < |chroma|
      invariant 0 <= i <= |chroma| && total == Chroma.Sum(chroma[..i])
    {
      assert chroma[..i + 1][..i] == chroma[..i];
      total := total + chroma[i];
      i := i + 1;
    }
    assert chroma[..|chroma|] == chroma;
  }

  /** `guessChordFromChroma`: the total, then the root loop keeping the best score and its
      label. */
  method GuessChordFromChroma(chroma: seq<real>) returns (text: string)
    requires |chroma| == 12
    ensures text == Label(GuessOf(chroma))
  {
    var total := TotalEnergy(chroma);
    if total <= EnergyFloor {
      return "--";
    }
    var bestScore := Unscored;
    var bestLabel := "--";
    var root := 0;
    while root < 12
      invariant 0 <= root <= 12
      invariant bestScore == BestOf(RootChoices(chroma, total, root)).score
      invariant bestLabel == BestLabel(BestOf(RootChoices(chroma, total, root)))
    {
      var kindIndex, local := ChooseForRoot(chroma, total, root);
      BestStep(chroma, total, root, kindIndex, local);
      if local > bestScore {
        bestScore := local;
        bestLabel := NoteNames.Names[root] + Suffix(Kinds[kindIndex]);
      }
      root := root + 1;
    }
    GuessLabel(chroma, total);
    if bestScore < MinScore {
      return "Uncertain";
    }
    return bestLabel;
  }

  /** One turn of the root loop: the running best moves to the new root exactly when its
      score is strictly larger. */
  lemma BestStep(chroma: seq<real>, total: real, root: int, kindIndex: int, local: real)
    requires |chroma| == 12 && 0 <= root < 12 && total > 0.0 && 0 <= kindIndex < 5
    requires RootChoice(chroma, total, root) == Choice(Kinds[kindIndex], local)
    ensures var b := BestOf(RootChoices(chroma, total, root));
            var b' := BestOf(RootChoices(chroma, total, root + 1));
            b'.score == (if local > b.score then local else b.score)
            && BestLabel(b') == (if local > b.score then NoteNames.Names[root] + Suffix(Kinds[kindIndex]) else BestLabel(b))
  {
    var done := RootChoices(chroma, total, root);
    var c := Choice(Kinds[kindIndex], local);
    assert RootChoices(chroma, total, root + 1) == done + [c];
    BestOfSnoc(done, c);
    assert BestLabel(Best(local, Some(c), root)) == NoteNames.Names[root] + Suffix(Kinds[kindIndex]);
  }

  /** Appending a choice moves the running best to it exactly when its score is strictly
      larger. */
  lemma BestOfSnoc(cs: seq<Choice>, c: Choice)
    ensures BestOf(cs + [c]) == if c.score > BestOf(cs).score then Best(c.score, Some(c), |cs|) else BestOf(cs)
  {
    assert (cs + [c])[..|cs|] == cs;
  }

  /** The label of the guess, from the running best over all twelve roots. */
  lemma GuessLabel(chroma: seq<real>, total: real)
    requires |chroma| == 12 && total == Chroma.Sum(chroma) && total > EnergyFloor
    ensures var b := BestOf(RootChoices(chroma, total, 12));
            Label(GuessOf(chroma)) == if b.score < MinScore then "Uncertain" else BestLabel(b)
  {
  }

  /** The running best is a maximum of the scores, and every choice before the one it keeps
      scores strictly less. */
  lemma {:induction false} BestOfIsMaximum(cs: seq<Choice>)
    ensures var b := BestOf(cs);
            (forall r :: 0 <= r < |cs| ==> cs[r].score <= b.score)
            && (b.pick.Some? ==> forall r :: 0 <= r < b.root ==> cs[r].score < b.score)
  {
    if cs != [] {
      BestOfIsMaximum(cs[..|cs| - 1]);
      assert forall r :: 0 <= r < |cs| - 1 ==> cs[..|cs| - 1][r] == cs[r];
    }
  }

  // ------------------------------------------------------------ properties

  /** Nothing is recognised exactly when the chroma carries (almost) no energy. */
  lemma NoEnergyIffSilent(chroma: seq<real>)
    requires |chroma| == 12
    ensures GuessOf(chroma) == NoEnergy <==> Chroma.Sum(chroma) <= EnergyFloor
  {
  }

  /** A reported chord's hypothesis passed its gate at that root: a major or dominant chord
      has its major third, a minor chord its minor third, a seventh chord its seventh. */
  lemma ReportedChordPassesGate(chroma: seq<real>)
    requires |chroma| == 12 && GuessOf(chroma).Chord?
    ensures Gate(EnergiesAt(chroma, GuessOf(chroma).root), GuessOf(chroma).kind)
  {
    var total := Chroma.Sum(chroma);
    var b := BestOf(RootChoices(chroma, total, 12));
    AllRootChoices(chroma, total);
    var e := EnergiesAt(chroma, b.root);
    var k := b.pick.value.kind;
    if !Gate(e, k) {
      UngatedIsUnscored(e, total, k);
      ChoiceScoreIsItsKindScore(chroma, total, b.root);
      assert false;
    }
  }

  /** The score a root settles on is the score of the hypothesis it names. */
  lemma ChoiceScoreIsItsKindScore(chroma: seq<real>, total: real, root: int)
    requires |chroma| == 12 && 0 <= root < 12 && total > 0.0
    ensures var c := RootChoice(chroma, total, root);
            c.score == Score(EnergiesAt(chroma, root), total, c.kind)
  {
  }

  /** A reported chord belongs to the root with the highest settled score: no root scores
      more, every earlier root scores strictly less, and the score reaches `MinScore`. */
  lemma ReportedChordIsBestRoot(chroma: seq<real>)
    requires |chroma| == 12 && GuessOf(chroma).Chord?
    ensures var total := Chroma.Sum(chroma);
            var g := GuessOf(chroma);
            var c := RootChoice(chroma, total, g.root);
            total > EnergyFloor && c.kind == g.kind && c.score >= MinScore
            && (forall r :: 0 <= r < 12 ==> RootChoice(chroma, total, r).score <= c.score)
            && (forall r :: 0 <= r < g.root ==> RootChoice(chroma, total, r).score < c.score)
  {
    var total := Chroma.Sum(chroma);
    BestOfIsMaximum(RootChoices(chroma, total, 12));
    AllRootChoices(chroma, total);
  }

  /** "Uncertain" exactly when there is energy but no root settles on a score of at least
      `MinScore`. */
  lemma UncertainIffAllRootsWeak(chroma: seq<real>)
    requires |chroma| == 12
    ensures GuessOf(chroma) == Uncertain
            <==> var total := Chroma.Sum(chroma);
                 total > EnergyFloor && forall r :: 0 <= r < 12 ==> RootChoice(chroma, total, r).score < MinScore
  {
    var total := Chroma.Sum(chroma);
    if total > EnergyFloor {
      BestOfIsMaximum(RootChoices(chroma, total, 12));
    AllRootChoices(chroma, total);
    }
  }

  /** A seventh chord is reported only when the power chord of its root is unscored or
      loses by at least the margin. */
  lemma SeventhBeatsPowerByMargin(chroma: seq<real>)
    requires |chroma| == 12 && GuessOf(chroma).Chord?
    requires GuessOf(chroma).kind == Dom7 || GuessOf(chroma).kind == Min7
    ensures var total := Chroma.Sum(chroma);
            var g := GuessOf(chroma);
            var e := EnergiesAt(chroma, g.root);
            var p := PowerScore(e, total);
            p <= -100000000.0 || Score(e, total, g.kind) - p >= SeventhMargin
  {
    var total := Chroma.Sum(chroma);
    AllRootChoices(chroma, total);
  }

  /** A strictly largest element is the one `ArgMaxFirst` finds. */
  lemma StrictMaxIsArgMax(s: seq<real>, i: int)
    requires 0 <= i < |s|
    requires forall j :: 0 <= j < |s| && j != i ==> s[j] < s[i]
    ensures ArgMaxFirst(s) == i
  {
  }

  /** C and G, equally strong. */
  const FifthChroma: seq<real> := [1.0, 0.0, 0.0, 0.0, 0.0, 0.0, 0.0, 1.0, 0.0, 0.0, 0.0, 0.0]

  /** C, with E and G at half its strength. */
  const TriadChroma: seq<real> := [1.0, 0.0, 0.0, 0.0, 0.5, 0.0, 0.0, 0.5, 0.0, 0.0, 0.0, 0.0]

  /** With only C and G sounding, the root C scores its power chord at 1.95 (no third, so
      no triad is scored) and settles on it. */
  lemma FifthChromaAtC()
    ensures Scores(EnergiesAt(FifthChroma, 0), 2.0) == [1.95, Unscored, Unscored, Unscored, Unscored]
    ensures RootChoice(FifthChroma, 2.0, 0) == Choice(Power, 1.95)
  {
    StrictMaxIsArgMax([1.95, Unscored, Unscored, Unscored, Unscored], 0);
    var e := RootEnergies(1.0, 1.0, 0.0, 0.0, 0.0);
    assert EnergiesAt(FifthChroma, 0) == e;
    assert Base(e) == 1.0;
    assert Scores(e, 2.0) == [1.95, Unscored, Unscored, Unscored, Unscored];
  }

  /** With a major third above C, the root C scores the major triad at 1.775, above its
      power chord (1.315, docked for the third), and settles on the major chord. */
  lemma TriadChromaAtC()
    ensures Scores(EnergiesAt(TriadChroma, 0), 2.0) == [1.315, 1.775, Unscored, Unscored, Unscored]
    ensures RootChoice(TriadChroma, 2.0, 0) == Choice(Major, 1.775)
  {
    StrictMaxIsArgMax([1.315, 1.775, Unscored, Unscored, Unscored], 1);
    var e := RootEnergies(1.0, 0.5, 0.5, 0.0, 0.0);
    assert EnergiesAt(TriadChroma, 0) == e;
    assert Base(e) == 1.0;
    assert Scores(e, 2.0) == [1.315, 1.775, Unscored, Unscored, Unscored];
  }

  /** A root that settles on a score of at least `MinScore`, strictly above every other
      root's, is the one reported, with the hypothesis it settled on. */
  lemma StrictlyBestRootIsReported(chroma: seq<real>, root: int)
    requires |chroma| == 12 && 0 <= root < 12 && Chroma.Sum(chroma) > EnergyFloor
    requires RootChoice(chroma, Chroma.Sum(chroma), root).score >= MinScore
    requires forall r :: 0 <= r < 12 && r != root ==>
               RootChoice(chroma, Chroma.Sum(chroma), r).score < RootChoice(chroma, Chroma.Sum(chroma), root).score
    ensures GuessOf(chroma) == Chord(root, RootChoice(chroma, Chroma.Sum(chroma), root).kind)
  {
    var total := Chroma.Sum(chroma);
    var cs := RootChoices(chroma, total, 12);
    BestOfIsMaximum(cs);
    AllRootChoices(chroma, total);
    var b := BestOf(cs);
    assert cs[root].score <= b.score;
    assert b.pick.Some?;
    assert cs[b.root].score == b.score;
  }

  /** A root's settled score is below `bound` when each of its five scores is. */
  lemma ChoiceBelow(chroma: seq<real>, total: real, root: int, bound: real)
    requires |chroma| == 12 && 0 <= root < 12 && total > 0.0
    requires forall i :: 0 <= i < 5 ==> Scores(EnergiesAt(chroma, root), total)[i] < bound
    ensures RootChoice(chroma, total, root).score < bound
  {
  }

  /** The energy of `FifthChroma`. */
  lemma FifthChromaTotal()
    ensures Chroma.Sum(FifthChroma) == 2.0
  {
    Chroma.SumOfTwelve(FifthChroma);
  }

  /** On `FifthChroma` the root C# scores at most 0.0 (its power chord), below C's 1.95. */
  lemma FifthChromaAtRoot1()
    ensures RootChoice(FifthChroma, 2.0, 1).score < 1.95
  {
    var e := RootEnergies(0.0, 0.0, 0.0, 0.0, 0.0);
    assert EnergiesAt(FifthChroma, 1) == e;
    assert Base(e) == EnergyFloor;
    ChoiceBelow(FifthChroma, 2.0, 1, 1.95);
  }

  /** On `FifthChroma` the root D scores at most 0.0 (its power chord), below C's 1.95. */
  lemma FifthChromaAtRoot2()
    ensures RootChoice(FifthChroma, 2.0, 2).score < 1.95
  {
    var e := RootEnergies(0.0, 0.0, 0.0, 0.0, 1.0);
    assert EnergiesAt(FifthChroma, 2) == e;
    assert Base(e) == EnergyFloor;
    ChoiceBelow(FifthChroma, 2.0, 2, 1.95);
  }

  /** On `FifthChroma` the root D# scores at most 0.58 (its major triad), below C's 1.95. */
  lemma FifthChromaAtRoot3()
    ensures RootChoice(FifthChroma, 2.0, 3).score < 1.95
  {
    var e := RootEnergies(0.0, 0.0, 1.0, 0.0, 0.0);
    assert EnergiesAt(FifthChroma, 3) == e;
    assert Base(e) == EnergyFloor;
    ChoiceBelow(FifthChroma, 2.0, 3, 1.95);
  }

  /** On `FifthChroma` the root E scores at most 0.58 (its minor triad), below C's 1.95. */
  lemma FifthChromaAtRoot4()
    ensures RootChoice(FifthChroma, 2.0, 4).score < 1.95
  {
    var e := RootEnergies(0.0, 0.0, 0.0, 1.0, 0.0);
    assert EnergiesAt(FifthChroma, 4) == e;
    assert Base(e) == EnergyFloor;
    ChoiceBelow(FifthChroma, 2.0, 4, 1.95);
  }

  /** On `FifthChroma` the root F scores at most 0.76 (its power chord), below C's 1.95. */
  lemma FifthChromaAtRoot5()
    ensures RootChoice(FifthChroma, 2.0, 5).score < 1.95
  {
    var e := RootEnergies(0.0, 1.0, 0.0, 0.0, 0.0);
    assert EnergiesAt(FifthChroma, 5) == e;
    assert Base(e) == 1.0;
    ChoiceBelow(FifthChroma, 2.0, 5, 1.95);
  }

  /** On `FifthChroma` the root F# scores at most 0.0 (its power chord), below C's 1.95. */
  lemma FifthChromaAtRoot6()
    ensures RootChoice(FifthChroma, 2.0, 6).score < 1.95
  {
    var e := RootEnergies(0.0, 0.0, 0.0, 0.0, 0.0);
    assert EnergiesAt(FifthChroma, 6) == e;
    assert Base(e) == EnergyFloor;
    ChoiceBelow(FifthChroma, 2.0, 6, 1.95);
  }

  /** On `FifthChroma` the root G scores at most 0.8 (its power chord), below C's 1.95. */
  lemma FifthChromaAtRoot7()
    ensures RootChoice(FifthChroma, 2.0, 7).score < 1.95
  {
    var e := RootEnergies(1.0, 0.0, 0.0, 0.0, 0.0);
    assert EnergiesAt(FifthChroma, 7) == e;
    assert Base(e) == 1.0;
    ChoiceBelow(FifthChroma, 2.0, 7, 1.95);
  }

  /** On `FifthChroma` the root G# scores at most 0.58 (its major triad), below C's 1.95. */
  lemma FifthChromaAtRoot8()
    ensures RootChoice(FifthChroma, 2.0, 8).score < 1.95
  {
    var e := RootEnergies(0.0, 0.0, 1.0, 0.0, 0.0);
    assert EnergiesAt(FifthChroma, 8) == e;
    assert Base(e) == EnergyFloor;
    ChoiceBelow(FifthChroma, 2.0, 8, 1.95);
  }

  /** On `FifthChroma` the root A scores at most 1.2 (its minor seventh), below C's 1.95. */
  lemma FifthChromaAtRoot9()
    ensures RootChoice(FifthChroma, 2.0, 9).score < 1.95
  {
    var e := RootEnergies(0.0, 0.0, 0.0, 1.0, 1.0);
    assert EnergiesAt(FifthChroma, 9) == e;
    assert Base(e) == EnergyFloor;
    ChoiceBelow(FifthChroma, 2.0, 9, 1.95);
  }

  /** On `FifthChroma` the root A# scores at most 0.0 (its power chord), below C's 1.95. */
  lemma FifthChromaAtRoot10()
    ensures RootChoice(FifthChroma, 2.0, 10).score < 1.95
  {
    var e := RootEnergies(0.0, 0.0, 0.0, 0.0, 0.0);
    assert EnergiesAt(FifthChroma, 10) == e;
    assert Base(e) == EnergyFloor;
    ChoiceBelow(FifthChroma, 2.0, 10, 1.95);
  }

  /** On `FifthChroma` the root B scores at most 0.0 (its power chord), below C's 1.95. */
  lemma FifthChromaAtRoot11()
    ensures RootChoice(FifthChroma, 2.0, 11).score < 1.95
  {
    var e := RootEnergies(0.0, 0.0, 0.0, 0.0, 0.0);
    assert EnergiesAt(FifthChroma, 11) == e;
    assert Base(e) == EnergyFloor;
    ChoiceBelow(FifthChroma, 2.0, 11, 1.95);
  }

  /** On `TriadChroma` the root C# scores at most 0.1975 (its minor triad), below C's 1.775. */
  lemma TriadChromaAtRoot1()
    ensures RootChoice(TriadChroma, 2.0, 1).score < 1.775
  {
    var e := RootEnergies(0.0, 0.0, 0.0, 0.5, 0.0);
    assert EnergiesAt(TriadChroma, 1) == e;
    assert Base(e) == EnergyFloor;
    ChoiceBelow(TriadChroma, 2.0, 1, 1.775);
  }

  /** On `TriadChroma` the root D scores at most 0.0 (its power chord), below C's 1.775. */
  lemma TriadChromaAtRoot2()
    ensures RootChoice(TriadChroma, 2.0, 2).score < 1.775
  {
    var e := RootEnergies(0.0, 0.0, 0.0, 0.0, 1.0);
    assert EnergiesAt(TriadChroma, 2) == e;
    assert Base(e) == EnergyFloor;
    ChoiceBelow(TriadChroma, 2.0, 2, 1.775);
  }

  /** On `TriadChroma` the root D# scores at most 0.1975 (its major triad), below C's 1.775. */
  lemma TriadChromaAtRoot3()
    ensures RootChoice(TriadChroma, 2.0, 3).score < 1.775
  {
    var e := RootEnergies(0.0, 0.0, 0.5, 0.0, 0.0);
    assert EnergiesAt(TriadChroma, 3) == e;
    assert Base(e) == EnergyFloor;
    ChoiceBelow(TriadChroma, 2.0, 3, 1.775);
  }

  /** On `TriadChroma` the root E scores at most 0.64 (its minor triad), below C's 1.775. */
  lemma TriadChromaAtRoot4()
    ensures RootChoice(TriadChroma, 2.0, 4).score < 1.775
  {
    var e := RootEnergies(0.5, 0.0, 0.0, 0.5, 0.0);
    assert EnergiesAt(TriadChroma, 4) == e;
    assert Base(e) == 0.5;
    ChoiceBelow(TriadChroma, 2.0, 4, 1.775);
  }

  /** On `TriadChroma` the root F scores at most 0.76 (its power chord), below C's 1.775. */
  lemma TriadChromaAtRoot5()
    ensures RootChoice(TriadChroma, 2.0, 5).score < 1.775
  {
    var e := RootEnergies(0.0, 1.0, 0.0, 0.0, 0.0);
    assert EnergiesAt(TriadChroma, 5) == e;
    assert Base(e) == 1.0;
    ChoiceBelow(TriadChroma, 2.0, 5, 1.775);
  }

  /** On `TriadChroma` the root F# scores at most 0.0 (its power chord), below C's 1.775. */
  lemma TriadChromaAtRoot6()
    ensures RootChoice(TriadChroma, 2.0, 6).score < 1.775
  {
    var e := RootEnergies(0.0, 0.0, 0.0, 0.0, 0.5);
    assert EnergiesAt(TriadChroma, 6) == e;
    assert Base(e) == EnergyFloor;
    ChoiceBelow(TriadChroma, 2.0, 6, 1.775);
  }

  /** On `TriadChroma` the root G scores at most 0.35 (its power chord), below C's 1.775. */
  lemma TriadChromaAtRoot7()
    ensures RootChoice(TriadChroma, 2.0, 7).score < 1.775
  {
    var e := RootEnergies(0.5, 0.0, 0.0, 0.0, 0.0);
    assert EnergiesAt(TriadChroma, 7) == e;
    assert Base(e) == 0.5;
    ChoiceBelow(TriadChroma, 2.0, 7, 1.775);
  }

  /** On `TriadChroma` the root G# scores at most 0.58 (its major triad), below C's 1.775. */
  lemma TriadChromaAtRoot8()
    ensures RootChoice(TriadChroma, 2.0, 8).score < 1.775
  {
    var e := RootEnergies(0.0, 0.0, 1.0, 0.0, 0.0);
    assert EnergiesAt(TriadChroma, 8) == e;
    assert Base(e) == EnergyFloor;
    ChoiceBelow(TriadChroma, 2.0, 8, 1.775);
  }

  /** On `TriadChroma` the root A scores at most 1.35 (its minor seventh), below C's 1.775. */
  lemma TriadChromaAtRoot9()
    ensures RootChoice(TriadChroma, 2.0, 9).score < 1.775
  {
    var e := RootEnergies(0.0, 0.5, 0.0, 1.0, 0.5);
    assert EnergiesAt(TriadChroma, 9) == e;
    assert Base(e) == 0.5;
    ChoiceBelow(TriadChroma, 2.0, 9, 1.775);
  }

  /** On `TriadChroma` the root A# scores at most 0.0 (its power chord), below C's 1.775. */
  lemma TriadChromaAtRoot10()
    ensures RootChoice(TriadChroma, 2.0, 10).score < 1.775
  {
    var e := RootEnergies(0.0, 0.0, 0.0, 0.0, 0.0);
    assert EnergiesAt(TriadChroma, 10) == e;
    assert Base(e) == EnergyFloor;
    ChoiceBelow(TriadChroma, 2.0, 10, 1.775);
  }

  /** On `TriadChroma` the root B scores at most 0.0 (its power chord), below C's 1.775. */
  lemma TriadChromaAtRoot11()
    ensures RootChoice(TriadChroma, 2.0, 11).score < 1.775
  {
    var e := RootEnergies(0.0, 0.0, 0.0, 0.0, 0.0);
    assert EnergiesAt(TriadChroma, 11) == e;
    assert Base(e) == EnergyFloor;
    ChoiceBelow(TriadChroma, 2.0, 11, 1.775);
  }

  /** C and G alone are reported as the power chord "C 5". */
  lemma FifthChromaIsC5()
    ensures GuessOf(FifthChroma) == Chord(0, Power)
  {
    FifthChromaTotal();
    FifthChromaAtC();
    forall r | 0 <= r < 12 && r != 0 ensures RootChoice(FifthChroma, 2.0, r).score < 1.95 {
      if r == 1 {
        FifthChromaAtRoot1();
      } else if r == 2 {
        FifthChromaAtRoot2();
      } else if r == 3 {
        FifthChromaAtRoot3();
      } else if r == 4 {
        FifthChromaAtRoot4();
      } else if r == 5 {
        FifthChromaAtRoot5();
      } else if r == 6 {
        FifthChromaAtRoot6();
      } else if r == 7 {
        FifthChromaAtRoot7();
      } else if r == 8 {
        FifthChromaAtRoot8();
      } else if r == 9 {
        FifthChromaAtRoot9();
      } else if r == 10 {
        FifthChromaAtRoot10();
      } else {
        FifthChromaAtRoot11();
      }
    }
    StrictlyBestRootIsReported(FifthChroma, 0);
  }

  /** The labels the two examples are shown with. */
  lemma ExampleLabels()
    ensures Label(Chord(0, Power)) == "C 5" && Label(Chord(0, Major)) == "C Maj"
  {
    assert NoteNames.Names[0] == "C";
  }

  /** The energy of `TriadChroma`. */
  lemma TriadChromaTotal()
    ensures Chroma.Sum(TriadChroma) == 2.0
  {
    Chroma.SumOfTwelve(TriadChroma);
  }

  /** C with half-strength E and G is reported as the major chord "C Maj". */
  lemma TriadChromaIsCMajor()
    ensures GuessOf(TriadChroma) == Chord(0, Major)
  {
    TriadChromaTotal();
    TriadChromaAtC();
    forall r | 0 <= r < 12 && r != 0 ensures RootChoice(TriadChroma, 2.0, r).score < 1.775 {
      if r == 1 {
        TriadChromaAtRoot1();
      } else if r == 2 {
        TriadChromaAtRoot2();
      } else if r == 3 {
        TriadChromaAtRoot3();
      } else if r == 4 {
        TriadChromaAtRoot4();
      } else if r == 5 {
        TriadChromaAtRoot5();
      } else if r == 6 {
        TriadChromaAtRoot6();
      } else if r == 7 {
        TriadChromaAtRoot7();
      } else if r == 8 {
        TriadChromaAtRoot8();
      } else if r == 9 {
        TriadChromaAtRoot9();
      } else if r == 10 {
        TriadChromaAtRoot10();
      } else {
        TriadChromaAtRoot11();
      }
    }
    StrictlyBestRootIsReported(TriadChroma, 0);
  }

  // ------------------------------------------------------------ triads from a note set

  predicate HasTriad(pcs: set<int>, root: int, third: int)
  {
    root in pcs && (root + third) % 12 in pcs && (root + 7) % 12 in pcs
  }

  /** The triad matcher over the pitch-class set `{ midi % 12 }` (Java's remainder, so a
      negative MIDI number that is not a multiple of 12 contributes a negative class that
      matches no root): the first root, from C upward, with a major or else a minor triad. */
  function TriadGuess(pcs: set<int>, from: int): (g: Guess)
    requires 0 <= from <= 12
    decreases 12 - from
    ensures ValidGuess(g) && (g.Uncertain? || g.Chord?)
  {
    if from == 12 then Uncertain
    else if HasTriad(pcs, from, 4) then Chord(from, Major)
    else if HasTriad(pcs, from, 3) then Chord(from, Minor)
    else TriadGuess(pcs, from + 1)
  }

  /** The set `{ n.midi % 12 }` of the notes, with Java's remainder. */
  function PitchClassSet(notes: seq<NoteNames.NotePeak>): set<int>
  {
    if notes == [] then {} else PitchClassSet(notes[..|notes| - 1]) + {Rem12(notes[|notes| - 1].midi)}
  }

  function NoteSetGuess(notes: seq<NoteNames.NotePeak>): (g: Guess)
    ensures ValidGuess(g)
  {
    if |notes| < 2 then NoEnergy else TriadGuess(PitchClassSet(notes), 0)
  }

  /** `guessChord`: collect the pitch classes, then try the roots in order. */
  method GuessChord(notes: seq<NoteNames.NotePeak>) returns (text: string)
    ensures text == Label(NoteSetGuess(notes))
  {
    if |notes| < 2 {
      return "--";
    }
    var pcs: set<int> := {};
    var i := 0;
    while i < |notes|
      invariant 0 <= i <= |notes|
      invariant pcs == PitchClassSet(notes[..i])
    {
      assert notes[..i + 1][..i] == notes[..i];
      pcs := pcs + {Rem12(notes[i].midi)};
      i := i + 1;
    }
    assert notes[..|notes|] == notes;
    var root := 0;
    while root < 12
      invariant 0 <= root <= 12
      invariant TriadGuess(pcs, root) == TriadGuess(pcs, 0)
    {
      var major := root in pcs && (root + 4) % 12 in pcs && (root + 7) % 12 in pcs;
      var minor := root in pcs && (root + 3) % 12 in pcs && (root + 7) % 12 in pcs;
      if major {
        return NoteNames.Names[root] + " Maj";
      }
      if minor {
        return NoteNames.Names[root] + " Min";
      }
      root := root + 1;
    }
    return "Uncertain";
  }

  /** The triad matcher reports a chord exactly when some root carries a major or minor
      triad, and then it reports the lowest such root, major before minor. */
  lemma {:induction false} TriadGuessIsFirstTriad(pcs: set<int>, from: int)
    requires 0 <= from <= 12
    decreases 12 - from
    ensures var g := TriadGuess(pcs, from);
            (g.Uncertain? <==> forall r :: from <= r < 12 ==> !HasTriad(pcs, r, 4) && !HasTriad(pcs, r, 3))
            && (g.Chord? ==>
                  from <= g.root
                  && (g.kind == Major ==> HasTriad(pcs, g.root, 4))
                  && (g.kind == Minor ==> HasTriad(pcs, g.root, 3) && !HasTriad(pcs, g.root, 4))
                  && forall r :: from <= r < g.root ==> !HasTriad(pcs, r, 4) && !HasTriad(pcs, r, 3))
  {
    if from < 12 && !HasTriad(pcs, from, 4) && !HasTriad(pcs, from, 3) {
      TriadGuessIsFirstTriad(pcs, from + 1);
    }
  }

  /** Only the classes 0 to 11 take part in a triad, so a negative class changes nothing. */
  lemma {:induction false} NegativeClassIsIgnored(pcs: set<int>, c: int, from: int)
    requires c < 0 && 0 <= from <= 12
    decreases 12 - from
    ensures TriadGuess(pcs + {c}, from) == TriadGuess(pcs, from)
  {
    if from < 12 {
      assert HasTriad(pcs + {c}, from, 4) == HasTriad(pcs, from, 4);
      assert HasTriad(pcs + {c}, from, 3) == HasTriad(pcs, from, 3);
      NegativeClassIsIgnored(pcs, c, from + 1);
    }
  }

  /** A note below MIDI 0 that is not a multiple of 12 has a negative Java remainder, so
      adding it to two or more notes neither completes nor spoils a triad. */
  lemma NegativeMidiIsIgnored(notes: seq<NoteNames.NotePeak>, n: NoteNames.NotePeak)
    requires |notes| >= 2 && n.midi < 0 && n.midi % 12 != 0
    ensures NoteSetGuess(notes + [n]) == NoteSetGuess(notes)
  {
    var all := notes + [n];
    assert all[..|all| - 1] == notes;
    assert Rem12(n.midi) < 0;
    NegativeClassIsIgnored(PitchClassSet(notes), Rem12(n.midi), 0);
  }

  /** For instance a G at MIDI -5 (remainder -5) does not complete C major. */
  lemma LowGDoesNotCompleteCMajor()
    ensures NoteSetGuess([NoteNames.NotePeak("C4", 60, 261.63, 1.0), NoteNames.NotePeak("E4", 64, 329.63, 1.0),
                          NoteNames.NotePeak("G-1", -5, 5.78, 1.0)]) == Uncertain
  {
    var notes := [NoteNames.NotePeak("C4", 60, 261.63, 1.0), NoteNames.NotePeak("E4", 64, 329.63, 1.0),
                  NoteNames.NotePeak("G-1", -5, 5.78, 1.0)];
    assert Rem12(60) == 0 && Rem12(64) == 4 && Rem12(-5) == -5;
    assert PitchClassSet(notes[..1]) == {0} by {
      assert notes[..1][..0] == [];
    }
    assert PitchClassSet(notes[..2]) == {0, 4} by {
      assert notes[..2][..1] == notes[..1];
    }
    assert PitchClassSet(notes) == {0, 4, -5} by {
      assert notes[..2] == notes[..|notes| - 1];
    }
    TriadGuessIsFirstTriad({0, 4, -5}, 0);
  }

  /** A multiple of 12 below MIDI 0 has remainder 0 and still counts: a C at MIDI -12 with
      E4 and G4 is C major. */
  lemma LowCCompletesCMajor()
    ensures NoteSetGuess([NoteNames.NotePeak("C-2", -12, 4.09, 1.0), NoteNames.NotePeak("E4", 64, 329.63, 1.0),
                          NoteNames.NotePeak("G4", 67, 392.0, 1.0)]) == Chord(0, Major)
  {
    var notes := [NoteNames.NotePeak("C-2", -12, 4.09, 1.0), NoteNames.NotePeak("E4", 64, 329.63, 1.0),
                  NoteNames.NotePeak("G4", 67, 392.0, 1.0)];
    assert Rem12(-12) == 0 && Rem12(64) == 4 && Rem12(67) == 7;
    assert PitchClassSet(notes[..1]) == {0} by {
      assert notes[..1][..0] == [];
    }
    assert PitchClassSet(notes[..2]) == {0, 4} by {
      assert notes[..2][..1] == notes[..1];
    }
    assert PitchClassSet(notes) == {0, 4, 7} by {
      assert notes[..2] == notes[..|notes| - 1];
    }
    assert HasTriad({0, 4, 7}, 0, 4);
  }
}
