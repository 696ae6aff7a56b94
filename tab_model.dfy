/** The tab browser's data: the JSON nodes it searches for a track, the track entries of its
    list, the preview text of a track, and the unwrapping of asynchronous failures. */
module TabModel {
  import opened JavaLang
  import opened TabText

  // ------------------------------------------------------------ JSON nodes

  /** The shapes of a parsed JSON tree the browser inspects, with `JMissing` standing for the
      node that `path` returns for an absent field. Numbers are integral here. */
  datatype JsonNode =
    | JMissing
    | JNull
    | JBool(b: bool)
    | JNumber(n: int)
    | JText(s: string)
    | JArray(elements: seq<JsonNode>)
    | JObject(fields: map<string, JsonNode>)

  /** `node.path(field)`: the field's value on an object that has it, the missing node
      otherwise. */
  function Path(node: JsonNode, field: string): (r: JsonNode)
    ensures r != JMissing ==> node.JObject? && field in node.fields && r == node.fields[field]
  {
    if node.JObject? && field in node.fields then node.fields[field] else JMissing
  }

  /** `node.asText()`: a text node's text, the digits of a number, "true"/"false", "null";
      the empty text for the missing node, arrays and objects. */
  function AsText(node: JsonNode): (text: string)
    ensures node.JText? ==> text == node.s
    ensures node.JMissing? || node.JArray? || node.JObject? ==> text == ""
  {
    match node
    case JMissing => ""
    case JNull => "null"
    case JBool(b) => if b then "true" else "false"
    case JNumber(n) => IntToDecimal(n)
    case JText(s) => s
    case JArray(_) => ""
    case JObject(_) => ""
  }

  /** The text a track node carries under "hash". */
  function HashOf(node: JsonNode): string
  {
    AsText(Path(node, "hash"))
  }

  /** Position of the first node among `nodes` whose hash text is `hash`. */
  function FirstWithHash(nodes: seq<JsonNode>, hash: string): (i: Option<nat>)
    ensures i.Some? ==> i.value < |nodes| && HashOf(nodes[i.value]) == hash
                        && forall j :: 0 <= j < i.value ==> HashOf(nodes[j]) != hash
    ensures i.None? ==> forall j :: 0 <= j < |nodes| ==> HashOf(nodes[j]) != hash
  {
    if nodes == [] then None
    else if HashOf(nodes[0]) == hash then Some(0)
    else match FirstWithHash(nodes[1..], hash)
      case None => None
      case Some(k) => Some(k + 1)
  }

  /** The track node `findTrackNode` answers with: None (Java's null) for a null or non-array
      node, or when no element matches; otherwise the first matching element. */
  function TrackNode(tracks: Option<JsonNode>, hash: string): (r: Option<JsonNode>)
    ensures r.Some? ==> tracks.Some? && tracks.value.JArray? && r.value in tracks.value.elements
                        && HashOf(r.value) == hash
    ensures r.None? <==> tracks.None? || !tracks.value.JArray?
                         || forall j :: 0 <= j < |tracks.value.elements| ==> HashOf(tracks.value.elements[j]) != hash
  {
    if tracks.None? || !tracks.value.JArray? then None
    else match FirstWithHash(tracks.value.elements, hash)
      case None => None
      case Some(i) => Some(tracks.value.elements[i])
  }

  /** `findTrackNode`: the search loop with its early return. */
  method FindTrackNode(tracks: Option<JsonNode>, hash: string) returns (r: Option<JsonNode>)
    ensures r == TrackNode(tracks, hash)
    ensures r.Some? ==> exists i :: 0 <= i < |tracks.value.elements| && r.value == tracks.value.elements[i]
                          && forall j :: 0 <= j < i ==> HashOf(tracks.value.elements[j]) != hash
  {
    if tracks.None? || !tracks.value.JArray? {
      return None;
    }
    var nodes := tracks.value.elements;
    var i := 0;
    while i < |nodes|
      invariant 0 <= i <= |nodes|
      invariant forall j :: 0 <= j < i ==> HashOf(nodes[j]) != hash
    {
      if AsText(Path(nodes[i], "hash")) == hash {
        FirstMatchIsFound(nodes, hash, i);
        return Some(nodes[i]);
      }
      i := i + 1;
    }
    return None;
  }

  /** A match with none before it is the first match. */
  lemma FirstMatchIsFound(nodes: seq<JsonNode>, hash: string, i: nat)
    requires i < |nodes| && HashOf(nodes[i]) == hash
    requires forall j :: 0 <= j < i ==> HashOf(nodes[j]) != hash
    ensures FirstWithHash(nodes, hash) == Some(i)
  {
  }

  /** Putting more tracks after a match does not change which node is found. */
  lemma {:induction false} AppendedTracksDoNotMatter(nodes: seq<JsonNode>, more: seq<JsonNode>, hash: string)
    requires FirstWithHash(nodes, hash).Some?
    ensures FirstWithHash(nodes + more, hash) == FirstWithHash(nodes, hash)
  {
    var i := FirstWithHash(nodes, hash).value;
    assert (nodes + more)[i] == nodes[i];
    FirstMatchIsFound(nodes + more, hash, i);
  }

  // ------------------------------------------------------------ track entries

  /** A track of a song, as listed for download: fixed description fields, and the saved
      file and preview text that a finished download records. */
  class TrackItem {
    const songId: int
    const artist: string
    const title: string
    const name: string
    const instrument: string
    const hash: string
    const difficulty: int
    const tuning: seq<int>
    var downloadedFile: Option<string>
    var downloadedPreview: Option<string>

    /** A fresh entry: the given description, nothing downloaded yet. */
    constructor (songId: int, artist: string, title: string, name: string, instrument: string,
                 hash: string, difficulty: int, tuning: seq<int>)
      ensures this.songId == songId && this.artist == artist && this.title == title
      ensures this.name == name && this.instrument == instrument && this.hash == hash
      ensures this.difficulty == difficulty && this.tuning == tuning
      ensures downloadedFile.None? && downloadedPreview.None?
    {
      this.songId := songId;
      this.artist := artist;
      this.title := title;
      this.name := name;
      this.instrument := instrument;
      this.hash := hash;
      this.difficulty := difficulty;
      this.tuning := tuning;
      downloadedFile := None;
      downloadedPreview := None;
    }

    /** `displayLabel`: name, a dash, the instrument, and " (Difficulty n)" only for a known
        (non-negative) difficulty. */
    function DisplayLabel(): (text: string)
    {
      name + " — " + instrument + (if difficulty >= 0 then " (Difficulty " + IntToDecimal(difficulty) + ")" else "")
    }

    /** `setDownloadedFile`: records where the track was saved. */
    method SetDownloadedFile(file: string)
      modifies this
      ensures downloadedFile == Some(file) && downloadedPreview == old(downloadedPreview)
    {
      downloadedFile := Some(file);
    }

    /** `setDownloadedPreview`: records the preview of the saved track. */
    method SetDownloadedPreview(preview: string)
      modifies this
      ensures downloadedPreview == Some(preview) && downloadedFile == old(downloadedFile)
    {
      downloadedPreview := Some(preview);
    }
  }

  /** What a label says: it starts with the track name followed by the dash and the
      instrument, and it ends in ")" with a difficulty that reads back exactly when the
      difficulty is known; otherwise it is just name, dash and instrument. */
  lemma DisplayLabelMeaning(t: TrackItem)
    ensures var head := t.name + " — " + t.instrument;
            var text := t.DisplayLabel();
            |head| <= |text| && text[..|head|] == head
            && (t.difficulty < 0 <==> text == head)
            && (t.difficulty >= 0 ==>
                  var tail := text[|head|..];
                  |tail| > 13 && tail[..13] == " (Difficulty " && tail[|tail| - 1] == ')'
                  && ParseDecimal(tail[13..|tail| - 1]) == Some(t.difficulty))
  {
    var head := t.name + " — " + t.instrument;
    var text := t.DisplayLabel();
    if t.difficulty >= 0 {
      var digits := IntToDecimal(t.difficulty);
      var tail := " (Difficulty " + digits + ")";
      assert text == head + tail;
      assert text[|head|..] == tail;
      assert tail[13..|tail| - 1] == digits;
      ParseIntToDecimal(t.difficulty);
    }
  }

  // ------------------------------------------------------------ the preview text

  /** The lines `buildPreview` writes whatever was downloaded: song, track, hash, difficulty
      ("N/A" when unknown) and tuning. */
  function DescriptionLines(title: string, artist: string, name: string, instrument: string, hash: string,
                            difficulty: int, tuning: seq<int>): string
  {
    "Song: " + title + " - " + artist + "\n"
    + "Track: " + name + " (" + instrument + ")\n"
    + "Hash: " + hash + "\n"
    + "Difficulty: " + (if difficulty < 0 then "N/A" else IntToDecimal(difficulty)) + "\n"
    + "Tuning: " + FormatTuning(tuning) + "\n"
  }

  /** The saved-file section, present once a file is recorded. */
  function FileSection(file: Option<string>): string
  {
    if file.Some? then "\nSaved file: " + file.value + "\n" else ""
  }

  /** The saved-preview section, present once a preview is recorded. */
  function PreviewSection(preview: Option<string>): string
  {
    if preview.Some? then "\nPreview:\n" + preview.value else ""
  }

  /** The preview `buildPreview` composes: the description, then the saved file and the
      saved preview when recorded. */
  function PreviewOf(title: string, artist: string, name: string, instrument: string, hash: string,
                     difficulty: int, tuning: seq<int>, file: Option<string>, preview: Option<string>): (text: string)
  {
    DescriptionLines(title, artist, name, instrument, hash, difficulty, tuning)
    + FileSection(file) + PreviewSection(preview)
  }

  /** The preview of a track entry as it now stands. */
  function TrackPreview(t: TrackItem): string
    reads t
  {
    PreviewOf(t.title, t.artist, t.name, t.instrument, t.hash, t.difficulty, t.tuning,
              t.downloadedFile, t.downloadedPreview)
  }

  /** `buildPreview`: appends the description, then each recorded section. */
  method BuildPreview(t: TrackItem) returns (text: string)
    ensures text == TrackPreview(t)
  {
    var sb := DescriptionLines(t.title, t.artist, t.name, t.instrument, t.hash, t.difficulty, t.tuning);
    if t.downloadedFile.Some? {
      sb := sb + "\nSaved file: " + t.downloadedFile.value + "\n";
    }
    assert sb == DescriptionLines(t.title, t.artist, t.name, t.instrument, t.hash, t.difficulty, t.tuning)
                 + FileSection(t.downloadedFile);
    if t.downloadedPreview.Some? {
      sb := sb + ("\nPreview:\n" + t.downloadedPreview.value);
    }
    text := sb;
  }

  /** The description lines come first and do not depend on any download; a recorded
      download only adds text after them. */
  lemma PreviewExtendsDescription(title: string, artist: string, name: string, instrument: string, hash: string,
                                  difficulty: int, tuning: seq<int>, file: Option<string>, preview: Option<string>)
    ensures var bare := PreviewOf(title, artist, name, instrument, hash, difficulty, tuning, None, None);
            var full := PreviewOf(title, artist, name, instrument, hash, difficulty, tuning, file, preview);
            |bare| <= |full| && full[..|bare|] == bare
            && (full == bare <==> file.None? && preview.None?)
  {
    var bare := PreviewOf(title, artist, name, instrument, hash, difficulty, tuning, None, None);
    var d := DescriptionLines(title, artist, name, instrument, hash, difficulty, tuning);
    var f := FileSection(file);
    var p := PreviewSection(preview);
    assert bare == d;
    assert (d + f + p)[..|d|] == d;
    assert file.Some? ==> |f| > 0;
    assert preview.Some? ==> |p| > 0;
  }

  /** Recording a saved file adds exactly its line to the preview. */
  lemma SavedFileLine(t: TrackItem, file: string)
    requires t.downloadedFile.None? && t.downloadedPreview.None?
    ensures PreviewOf(t.title, t.artist, t.name, t.instrument, t.hash, t.difficulty, t.tuning, Some(file), None)
            == TrackPreview(t) + "\nSaved file: " + file + "\n"
  {
  }

  // ------------------------------------------------------------ failures

  /** The kinds of failure `unwrap` tells apart. */
  datatype FailureKind = CompletionFailure | ExecutionFailure | OtherFailure(className: string)

  /** A failure with its message and optional cause. */
  datatype Throwable = Throwable(kind: FailureKind, message: string, cause: Option<Throwable>)

  /** `unwrap`: a completion or execution wrapper that has a cause yields that cause; every
      other failure is returned as it is. */
  function Unwrap(f: Throwable): (r: Throwable)
    ensures r == f || (f.cause.Some? && r == f.cause.value)
  {
    if f.kind.CompletionFailure? && f.cause.Some? then f.cause.value
    else if f.kind.ExecutionFailure? && f.cause.Some? then f.cause.value
    else f
  }

  /** A failure is unwrapped exactly when it is a wrapper with a cause. */
  lemma UnwrapPeelsOnlyWrappers(f: Throwable)
    ensures Unwrap(f) != f <==> (f.kind.CompletionFailure? || f.kind.ExecutionFailure?) && f.cause.Some?
  {
  }

  /** Only one layer is peeled: a completion wrapping an execution wrapping `inner` gives the
      execution wrapper, not `inner`. */
  lemma UnwrapPeelsOneLayer(inner: Throwable, m1: string, m2: string)
    ensures var execution := Throwable(ExecutionFailure, m2, Some(inner));
            Unwrap(Throwable(CompletionFailure, m1, Some(execution))) == execution
            && Unwrap(execution) == inner
  {
  }
}
