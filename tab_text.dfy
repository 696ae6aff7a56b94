/** Text helpers of the tab browser: file-name sanitising, note names for a tuning, and
    locating the JSON state payload embedded in a song page. */
module TabText {
  import opened JavaLang
  import opened NoteNames

  // ------------------------------------------------------------ sanitize

  /** Characters a file-name part may keep: ASCII letters, digits, '-' and '_'. */
  predicate SafeChar(c: char)
  {
    'a' <= c <= 'z' || 'A' <= c <= 'Z' || '0' <= c <= '9' || c == '-' || c == '_'
  }

  /** `replaceAll("[^a-zA-Z0-9-_ ]", "")`: drop everything but safe characters and spaces. */
  function KeepSafe(s: string): (r: string)
    ensures SafeOrSpaces(r)
    ensures |r| <= |s|
  {
    if s == [] then []
    else (if SafeChar(s[0]) || s[0] == ' ' then [s[0]] else []) + KeepSafe(s[1..])
  }

  /** `String.trim` drops leading and trailing characters up to U+0020. */
  predicate Blank(c: char)
  {
    c <= ' '
  }

  function TrimStart(s: string): (r: string)
    ensures |r| <= |s| && r == s[|s| - |r|..]
    ensures r == [] || !Blank(r[0])
  {
    if s != [] && Blank(s[0]) then TrimStart(s[1..]) else s
  }

  function TrimEnd(s: string): (r: string)
    ensures |r| <= |s| && r == s[..|r|]
    ensures r == [] || !Blank(r[|r| - 1])
  {
    if s != [] && Blank(s[|s| - 1]) then TrimEnd(s[..|s| - 1]) else s
  }

  function Trim(s: string): (r: string)
  {
    TrimEnd(TrimStart(s))
  }

  /** `replace(' ', '_')`. */
  function SpacesToUnderscores(s: string): (r: string)
    ensures |r| == |s|
    ensures forall i :: 0 <= i < |s| ==> r[i] == if s[i] == ' ' then '_' else s[i]
  {
    if s == [] then [] else SpacesToUnderscores(s[..|s| - 1]) + [if s[|s| - 1] == ' ' then '_' else s[|s| - 1]]
  }

  /** The fallback name when nothing usable is left. */
  const FallbackName: string := "song"

  /** Every character is safe or a space. */
  predicate SafeOrSpaces(s: string)
  {
    forall i :: 0 <= i < |s| ==> SafeChar(s[i]) || s[i] == ' '
  }

  /** Trimming only removes characters, so it keeps `SafeOrSpaces`. */
  lemma TrimKeepsSafeOrSpaces(s: string)
    requires SafeOrSpaces(s)
    ensures SafeOrSpaces(Trim(s))
  {
    var t := TrimStart(s);
    var k := |s| - |t|;
    forall i | 0 <= i < |t| ensures SafeChar(t[i]) || t[i] == ' ' {
      assert t[i] == s[k + i];
    }
    var u := TrimEnd(t);
    forall i | 0 <= i < |u| ensures SafeChar(u[i]) || u[i] == ' ' {
      assert u[i] == t[i];
    }
  }

  /** `sanitize`: keep safe characters and spaces, trim, fall back to "song" when empty, and
      turn the inner spaces into underscores. */
  function Sanitize(value: string): (r: string)
    ensures |r| > 0
    ensures forall i :: 0 <= i < |r| ==> SafeChar(r[i])
  {
    var kept := Trim(KeepSafe(value));
    if kept == [] then FallbackName
    else
      TrimKeepsSafeOrSpaces(KeepSafe(value));
      SpacesToUnderscores(kept)
  }

  lemma {:induction false} KeepSafeKeepsSafeText(s: string)
    requires forall i :: 0 <= i < |s| ==> SafeChar(s[i])
    ensures KeepSafe(s) == s
  {
    if s != [] {
      KeepSafeKeepsSafeText(s[1..]);
    }
  }

  lemma TrimKeepsSafeText(s: string)
    requires forall i :: 0 <= i < |s| ==> SafeChar(s[i])
    ensures Trim(s) == s
  {
    assert s == [] || !Blank(s[0]);
    assert TrimStart(s) == s;
    assert s == [] || !Blank(s[|s| - 1]);
  }

  /** A name made only of safe characters is its own sanitised form. */
  lemma SanitizeKeepsSafeNames(s: string)
    requires |s| > 0 && forall i :: 0 <= i < |s| ==> SafeChar(s[i])
    ensures Sanitize(s) == s
  {
    calc {
      Sanitize(s);
    == { KeepSafeKeepsSafeText(s); TrimKeepsSafeText(s); }
      SpacesToUnderscores(s);
    == { UnderscoresLeaveSafeText(s); }
      s;
    }
  }

  lemma UnderscoresLeaveSafeText(s: string)
    requires forall i :: 0 <= i < |s| ==> SafeChar(s[i])
    ensures SpacesToUnderscores(s) == s
  {
    var u := SpacesToUnderscores(s);
    forall i | 0 <= i < |s| ensures u[i] == s[i] {
      assert s[i] != ' ' by { assert SafeChar(s[i]); }
    }
  }

  /** Sanitising twice is the same as sanitising once. */
  lemma SanitizeIdempotent(value: string)
    ensures Sanitize(Sanitize(value)) == Sanitize(value)
  {
    SanitizeKeepsSafeNames(Sanitize(value));
  }

  lemma {:induction false} KeepSafeDropsUnsafeText(s: string)
    requires forall i :: 0 <= i < |s| ==> !SafeChar(s[i])
    ensures forall i :: 0 <= i < |KeepSafe(s)| ==> KeepSafe(s)[i] == ' '
  {
    if s != [] {
      KeepSafeDropsUnsafeText(s[1..]);
    }
  }

  lemma {:induction false} TrimStartOfBlanks(s: string)
    requires forall i :: 0 <= i < |s| ==> s[i] == ' '
    ensures TrimStart(s) == []
  {
    if s != [] {
      TrimStartOfBlanks(s[1..]);
    }
  }

  /** A name without a single safe character (only spaces and symbols, say) becomes "song". */
  lemma NoSafeCharacterGivesFallback(value: string)
    requires forall i :: 0 <= i < |value| ==> !SafeChar(value[i])
    ensures Sanitize(value) == FallbackName
  {
    KeepSafeDropsUnsafeText(value);
    TrimStartOfBlanks(KeepSafe(value));
  }

  // ------------------------------------------------------------ note names of a tuning

  /** `midiToNote`: the name from `(midi % 12 + 12) % 12` (with Java's `%`) and the octave
      `midi / 12 - 1` (with Java's truncating `/`). */
  function MidiToNote(midi: int): (text: string)
  {
    Names[Rem12(Rem12(midi) + 12)] + IntToDecimal(Div12(midi) - 1)
  }

  /** The tab browser spells notes exactly as the analysis screen's note labels, negative MIDI
      numbers included: the shifted remainder always lands in 0..11 and is the pitch class. */
  lemma MidiToNoteIsNoteLabel(midi: int)
    ensures 0 <= Rem12(Rem12(midi) + 12) < 12
    ensures MidiToNote(midi) == NoteLabel(midi)
  {
    ShiftedRemIsFloorMod(midi);
  }

  /** Words joined with single spaces (`Collectors.joining(" ")`). */
  function JoinWords(words: seq<string>): (text: string)
    requires words != []
  {
    if |words| == 1 then words[0] else words[0] + " " + JoinWords(words[1..])
  }

  function NotesOf(tuning: seq<int>): (names: seq<string>)
    ensures |names| == |tuning| && forall i :: 0 <= i < |tuning| ==> names[i] == MidiToNote(tuning[i])
  {
    if tuning == [] then [] else [MidiToNote(tuning[0])] + NotesOf(tuning[1..])
  }

  /** `formatTuning`: "Unknown" for no strings, otherwise the note of each string in order,
      separated by single spaces. */
  function FormatTuning(tuning: seq<int>): (text: string)
  {
    if tuning == [] then "Unknown" else JoinWords(NotesOf(tuning))
  }

  /** Index of the first space, if any. */
  function FirstSpace(s: string): (r: Option<nat>)
    ensures r.Some? ==> r.value < |s| && s[r.value] == ' ' && forall j :: 0 <= j < r.value ==> s[j] != ' '
    ensures r.None? ==> forall j :: 0 <= j < |s| ==> s[j] != ' '
  {
    if s == [] then None
    else if s[0] == ' ' then Some(0)
    else match FirstSpace(s[1..])
      case None => None
      case Some(i) => Some(i + 1)
  }

  /** Splits at every single space. */
  function SplitWords(s: string): (words: seq<string>)
    ensures words != []
    decreases |s|
  {
    match FirstSpace(s)
    case None => [s]
    case Some(i) => [s[..i]] + SplitWords(s[i + 1..])
  }

  predicate NoSpaces(w: string)
  {
    forall j :: 0 <= j < |w| ==> w[j] != ' '
  }

  /** Splitting undoes joining, for words without spaces. */
  lemma {:induction false} SplitJoin(words: seq<string>)
    requires words != [] && forall k :: 0 <= k < |words| ==> NoSpaces(words[k])
    ensures SplitWords(JoinWords(words)) == words
  {
    if |words| > 1 {
      var w := words[0];
      var rest := JoinWords(words[1..]);
      var s := w + " " + rest;
      assert FirstSpace(s) == Some(|w|) by {
        FirstSpaceAt(s, |w|);
      }
      assert s[..|w|] == w && s[|w| + 1..] == rest;
      SplitJoin(words[1..]);
    }
  }

  lemma FirstSpaceAt(s: string, i: nat)
    requires i < |s| && s[i] == ' ' && forall j :: 0 <= j < i ==> s[j] != ' '
    ensures FirstSpace(s) == Some(i)
  {
  }

  /** A note name never contains a space. */
  lemma MidiToNoteHasNoSpaces(midi: int)
    ensures NoSpaces(MidiToNote(midi))
  {
    MidiToNoteIsNoteLabel(midi);
    var name := MidiToNoteName(midi);
    var digits := IntToDecimal(OctaveNumber(midi));
    assert NoteLabel(midi) == name + digits;
    NamesShapeAndDistinct();
    assert name in Names;
  }

  /** The tuning text of a non-empty tuning is one note name per string, in order, separated
      by single spaces: splitting it at the spaces gives back exactly those names. */
  lemma FormatTuningWords(tuning: seq<int>)
    requires tuning != []
    ensures SplitWords(FormatTuning(tuning)) == NotesOf(tuning)
  {
    var names := NotesOf(tuning);
    forall k | 0 <= k < |names| ensures NoSpaces(names[k]) {
      MidiToNoteHasNoSpaces(tuning[k]);
    }
    SplitJoin(names);
  }

  /** The tuning text of strings from MIDI 0 up reads back into the same MIDI numbers: split
      at the spaces, each note name gives its pitch class and octave. */
  lemma FormatTuningRoundTrip(tuning: seq<int>)
    requires tuning != [] && forall k :: 0 <= k < |tuning| ==> tuning[k] >= 0
    ensures var words := SplitWords(FormatTuning(tuning));
            |words| == |tuning|
            && forall k :: 0 <= k < |tuning| ==>
                 var p := ParseNoteLabel(words[k]);
                 p.Some? && 12 * (p.value.1 + 1) + p.value.0 == tuning[k]
  {
    FormatTuningWords(tuning);
    forall k | 0 <= k < |tuning|
      ensures var p := ParseNoteLabel(NotesOf(tuning)[k]);
              p.Some? && 12 * (p.value.1 + 1) + p.value.0 == tuning[k]
    {
      MidiToNoteIsNoteLabel(tuning[k]);
      NoteLabelIdentifiesMidi(tuning[k]);
    }
  }

  // ------------------------------------------------------------ the embedded state payload

  /** `pat` occurs in `s` starting at `i`. */
  predicate OccursAt(s: string, pat: string, i: int)
  {
    0 <= i && i + |pat| <= |s| && s[i..i + |pat|] == pat
  }

  /** `s.indexOf(pat, from)` for a non-negative `from`: the first occurrence at or after
      `from`, or None for Java's -1. */
  function IndexOf(s: string, pat: string, from: nat): (r: Option<nat>)
    ensures r.Some? ==> from <= r.value && OccursAt(s, pat, r.value)
    ensures forall j :: from <= j && (r.None? || j < r.value) ==> !OccursAt(s, pat, j)
    decreases |s| - from
  {
    if from + |pat| > |s| then None
    else if s[from..from + |pat|] == pat then Some(from)
    else IndexOf(s, pat, from + 1)
  }

  /** The opening of the state script element, and its terminator. */
  const StateMarker: string := "<script id=\"state\""
  const ScriptEnd: string := "</script>"

  const NoMarkerError: string := "Unable to locate Songsterr state payload."
  const MalformedError: string := "Malformed Songsterr state script."

  /** Where the payload lies: `marker` is the first state marker, `start` the first '>'
      from it on, and `end` the first terminator from `start` on. */
  datatype Bounds = Bounds(marker: nat, start: nat, end: nat)

  /** The page holds a state marker, a '>' at or after it and a terminator after that. */
  ghost predicate HasStateElement(html: string)
  {
    exists m, s, e :: 0 <= m <= s <= e && OccursAt(html, StateMarker, m) && OccursAt(html, ">", s) && OccursAt(html, ScriptEnd, e)
  }

  /** The bounds of the payload, or the error `extractStateJson` raises: one without the
      marker, another without the '>' or the terminator after it. */
  function StateBounds(html: string): (b: Result<Bounds, string>)
    ensures b.Success? <==> HasStateElement(html)
    ensures b.Failure? ==> b.error == NoMarkerError || b.error == MalformedError
    ensures b.Failure? && b.error == NoMarkerError <==> forall j :: 0 <= j ==> !OccursAt(html, StateMarker, j)
    ensures b.Success? ==>
              var m, s, e := b.value.marker, b.value.start, b.value.end;
              OccursAt(html, StateMarker, m) && (forall j :: 0 <= j < m ==> !OccursAt(html, StateMarker, j))
              && m <= s && OccursAt(html, ">", s) && (forall j :: m <= j < s ==> !OccursAt(html, ">", j))
              && s < e && OccursAt(html, ScriptEnd, e) && (forall j :: s <= j < e ==> !OccursAt(html, ScriptEnd, j))
  {
    match IndexOf(html, StateMarker, 0)
    case None => Failure(NoMarkerError)
    case Some(marker) =>
      match IndexOf(html, ">", marker)
      case None => Failure(MalformedError)
      case Some(start) =>
        match IndexOf(html, ScriptEnd, start)
        case None => Failure(MalformedError)
        case Some(end) =>
          assert html[start] == html[start..start + 1][0] == '>';
          assert html[end] == html[end..end + |ScriptEnd|][0] == '<';
          Success(Bounds(marker, start, end))
  }

  /** The locating part of `extractStateJson`: the text strictly between the first '>' after
      the first state marker and the next terminator, or the error. Parsing the payload as
      JSON is not part of this model. */
  function ExtractStatePayload(html: string): (r: Result<string, string>)
    ensures r.Failure? <==> StateBounds(html).Failure?
    ensures r.Failure? ==> r.error == StateBounds(html).error
    ensures r.Success? ==>
              var b := StateBounds(html).value;
              |r.value| == b.end - b.start - 1
              && forall i :: 0 <= i < |r.value| ==> r.value[i] == html[b.start + 1 + i]
  {
    match StateBounds(html)
    case Failure(e) => Failure(e)
    case Success(b) => Success(html[b.start + 1..b.end])
  }

  /** The payload never contains the terminator: the scan stops at the first one. */
  lemma PayloadHasNoTerminator(html: string)
    requires ExtractStatePayload(html).Success?
    ensures forall j :: 0 <= j ==> !OccursAt(ExtractStatePayload(html).value, ScriptEnd, j)
  {
    var b := StateBounds(html).value;
    var p := ExtractStatePayload(html).value;
    assert p == html[b.start + 1..b.end];
    forall j | 0 <= j ensures !OccursAt(p, ScriptEnd, j) {
      SliceHasNoTerminator(html, b.start, b.end, j);
    }
  }

  /** A slice of text that starts after `start` and holds no terminator occurrence from
      `start` on holds none of its own. */
  lemma SliceHasNoTerminator(html: string, start: nat, end: nat, j: nat)
    requires start < end <= |html|
    requires forall i :: start <= i < end ==> !OccursAt(html, ScriptEnd, i)
    ensures !OccursAt(html[start + 1..end], ScriptEnd, j)
  {
    var p := html[start + 1..end];
    if j + |ScriptEnd| <= |p| {
      SliceOfSlice(html, start + 1, end, j, j + |ScriptEnd|);
      assert !OccursAt(html, ScriptEnd, start + 1 + j);
    }
  }

  /** A one-character pattern occurs exactly where that character is. */
  lemma OccursAtChar(s: string, c: char, j: int)
    ensures OccursAt(s, [c], j) <==> 0 <= j < |s| && s[j] == c
  {
    if 0 <= j < |s| {
      assert s[j..j + 1] == [s[j]];
    }
  }

  /** The terminator's only '<' is its first character. */
  lemma TerminatorHasOneOpening()
    ensures ScriptEnd[0] == '<'
    ensures forall d :: 1 <= d < |ScriptEnd| ==> ScriptEnd[d] != '<'
  {
  }

  /** A terminator ending the text is the only one that overlaps its last characters. */
  lemma NoOverlappingTerminator(html: string, j: int, end: nat)
    requires end + |ScriptEnd| == |html| && html[end..] == ScriptEnd
    requires 0 <= j < end < j + |ScriptEnd|
    ensures !OccursAt(html, ScriptEnd, j)
  {
    var d := end - j;
    assert html[j..j + |ScriptEnd|][d] == html[end] == html[end..][0];
    TerminatorHasOneOpening();
  }

  /** A page that is just the state element, with attributes free of '>' and a payload free
      of the terminator, yields that payload. */
  lemma ExtractFromStateElement(attributes: string, payload: string)
    requires forall j :: 0 <= j < |attributes| ==> attributes[j] != '>'
    requires forall j :: 0 <= j ==> !OccursAt(payload, ScriptEnd, j)
    ensures ExtractStatePayload(StateMarker + attributes + ">" + payload + ScriptEnd) == Success(payload)
  {
    var head := StateMarker + attributes;
    var html := head + ">" + payload + ScriptEnd;
    var start := |head|;
    var end := start + 1 + |payload|;
    assert html[..|StateMarker|] == StateMarker;
    IndexOfFirst(html, StateMarker, 0, 0);
    forall j | 0 <= j < start ensures !OccursAt(html, ">", j) {
      assert html[j] == head[j];
      OccursAtChar(html, '>', j);
    }
    assert html[start] == '>';
    OccursAtChar(html, '>', start);
    IndexOfFirst(html, ">", 0, start);
    assert html[end..] == ScriptEnd;
    forall j | start <= j < end ensures !OccursAt(html, ScriptEnd, j) {
      TerminatorNotInside(html, payload, start, j);
    }
    IndexOfFirst(html, ScriptEnd, start, end);
    assert html[start + 1..end] == payload;
  }

  /** No terminator starts at the '>' or inside the payload of a state element. */
  lemma TerminatorNotInside(html: string, payload: string, start: nat, j: nat)
    requires forall k :: 0 <= k ==> !OccursAt(payload, ScriptEnd, k)
    requires start + 1 + |payload| + |ScriptEnd| == |html|
    requires html[start] == '>' && html[start + 1..start + 1 + |payload|] == payload
    requires html[start + 1 + |payload|..] == ScriptEnd
    requires start <= j < start + 1 + |payload|
    ensures !OccursAt(html, ScriptEnd, j)
  {
    var end := start + 1 + |payload|;
    if j == start {
      TerminatorHasOneOpening();
      assert html[j..j + |ScriptEnd|][0] == html[j];
    } else if j + |ScriptEnd| <= end {
      var k := j - start - 1;
      SliceOfSlice(html, start + 1, end, k, k + |ScriptEnd|);
      assert !OccursAt(payload, ScriptEnd, k);
    } else {
      NoOverlappingTerminator(html, j, end);
    }
  }

  /** A slice of a slice is a slice of the whole. */
  lemma SliceOfSlice(s: string, a: nat, b: nat, c: nat, d: nat)
    requires a <= b <= |s| && c <= d <= b - a
    ensures s[a..b][c..d] == s[a + c..a + d]
  {
    assert forall i :: 0 <= i < d - c ==> s[a..b][c..d][i] == s[a + c + i];
  }

  /** When `i` is an occurrence and none lies between `from` and `i`, `indexOf` finds `i`. */
  lemma {:induction false} IndexOfFirst(s: string, pat: string, from: nat, i: nat)
    requires from <= i && OccursAt(s, pat, i)
    requires forall j :: from <= j < i ==> !OccursAt(s, pat, j)
    ensures IndexOf(s, pat, from) == Some(i)
    decreases i - from
  {
    if from < i {
      assert !OccursAt(s, pat, from);
      IndexOfFirst(s, pat, from + 1, i);
    }
  }
}
