/** Speaker segmentation of a stored dictation (the `parsedDictation` memo of
    the transcript panel): the text is split on `Speaker X:` markers and each
    marker is paired with the trimmed text that follows it. */
module Dictation {
  import opened Strings
  import opened Json
  import opened LiteralSplit

  /** One displayed entry: the speaker label ("Speaker A"), if any, and its text. */
  datatype Segment = Segment(speaker: Option<string>, text: string)

  /** The label a marker part yields: `part.replace(':', '')`. */
  function SpeakerLabel(marker: string): string {
    RemoveFirst(marker, ":")
  }

  /** A marker "Speaker X:" loses exactly its final colon. */
  lemma SpeakerLabelOfMarker(marker: string)
    requires Matches(SpeakerMarker, marker)
    ensures SpeakerLabel(marker) == SpeakerPrefix + [marker[8]] && IsUpper(marker[8])
  {
    var i := IndexOf(marker, ":", 0);
    forall k | 0 <= k < 9 ensures !OccursAt(marker, ":", k) {
      assert marker[k..k + 1] == [marker[k]];
      assert k < 8 ==> marker[k] == SpeakerPrefix[k];
    }
    assert OccursAt(marker, ":", 9) by { assert marker[9..10] == [marker[9]]; }
    assert i == 9;
    assert marker[..9] == SpeakerPrefix + [marker[8]];
    assert marker[10..] == [];
  }

  /** The entry a marker part and the text part after it yield. */
  function MarkerSegment(marker: string, after: string): Segment {
    Segment(Some(SpeakerLabel(marker)), Trim(after))
  }

  /** Entry k comes from the marker at part 2k + 1 and the text at part 2k + 2. */
  predicate PairsMarkers(parts: seq<string>, result: seq<Segment>) {
    && |parts| == 2 * |result| + 1
    && forall k :: 0 <= k < |result| ==> result[k] == MarkerSegment(parts[2 * k + 1], parts[2 * k + 2])
  }

  /** The loop `for (i = 1; i < parts.length; i += 2)` that pairs each marker with
      the text after it; `parts[i + 1]` is in range because the split has an odd
      number of parts. */
  method PairMarkers(parts: seq<string>) returns (result: seq<Segment>)
    requires |parts| % 2 == 1
    ensures PairsMarkers(parts, result)
  {
    ghost var n := |parts| / 2;
    assert |parts| == 2 * n + 1;
    result := [];
    var i := 1;
    while i < |parts|
      invariant i == 2 * |result| + 1 && i <= |parts|
      invariant forall k :: 0 <= k < |result| ==> result[k] == MarkerSegment(parts[2 * k + 1], parts[2 * k + 2])
      decreases |parts| - i
    {
      result := result + [MarkerSegment(parts[i], parts[i + 1])];
      i := i + 2;
    }
  }

  /** `dictation?.Table?.[0]?.DICTATION_TEXT`: undefined (Null) as soon as
      one step of the path is missing. */
  function DictationText(dictation: Json): Json {
    Property(Element(Property(dictation, "Table"), 0), "DICTATION_TEXT")
  }

  /** A stored dictation record yields its text. */
  lemma DictationTextOfRecord(text: string)
    ensures DictationText(Obj([("Table", Arr([Obj([("DICTATION_TEXT", Str(text))])]))])) == Str(text)
  {
  }

  /** A record whose `Table` has no first row yields no text. */
  lemma DictationTextOfEmptyTable()
    ensures DictationText(Obj([("Table", Arr([]))])) == Null
  {
  }

  /** What the memo returns: null, the entries, or the TypeError of
      `text.split` when the text is truthy but not a string. */
  datatype Parsed = NoEntries | Entries(segments: seq<Segment>) | SplitThrows

  /** The `parsedDictation` memo. The result is null exactly when the text is
      falsy (missing or ""); a truthy text that is not a string has no `split`
      and throws; a string without markers is one entry with no speaker and
      the text untrimmed; otherwise there is one entry per marker, in text
      order. */
  method ParseDictation(dictation: Json) returns (r: Parsed)
    ensures r.NoEntries? <==> !Truthy(DictationText(dictation))
    ensures r.SplitThrows? <==> Truthy(DictationText(dictation)) && !DictationText(dictation).Str?
    ensures var t := DictationText(dictation);
      t.Str? && t.s != "" && NoMatchIn(SpeakerMarker, t.s) ==> r == Entries([Segment(None, t.s)])
    ensures var t := DictationText(dictation);
      t.Str? && t.s != "" && !NoMatchIn(SpeakerMarker, t.s) ==>
        && r.Entries? && |r.segments| == MatchCount(SpeakerMarker, t.s) >= 1
        && PairsMarkers(Split(SpeakerMarker, t.s), r.segments)
  {
    var text := DictationText(dictation);
    if !Truthy(text) {
      return NoEntries;
    }
    if !text.Str? {
      return SplitThrows;
    }
    var s := text.s;
    var parts := Split(SpeakerMarker, s);
    if |parts| <= 1 {
      assert Flatten(parts) == parts[0] + Flatten(parts[1..]);
      assert parts[0] == s;
      return Entries([Segment(None, s)]);
    }
    if NoMatchIn(SpeakerMarker, s) {
      SplitWithoutMatch(SpeakerMarker, s);
    }
    var result := PairMarkers(parts);
    return Entries(result);
  }

  /** Every speaker label is "Speaker " followed by one capital letter, and the
      k-th entry belongs to the k-th marker of the text. */
  lemma SpeakersAreMarkerLabels(s: string, k: nat)
    requires k < MatchCount(SpeakerMarker, s)
    ensures var parts := Split(SpeakerMarker, s);
      var name := SpeakerLabel(parts[2 * k + 1]);
      |name| == 9 && name[..8] == SpeakerPrefix && IsUpper(name[8])
  {
    var parts := Split(SpeakerMarker, s);
    assert 2 * k + 1 < |parts|;
    SpeakerLabelOfMarker(parts[2 * k + 1]);
  }

  /** The text before the first marker is dropped: it is exactly the first
      part, which no entry is built from (`PairsMarkers` reads parts 1 onwards),
      and those parts are the text from the first marker on. */
  lemma PreambleIsDropped(s: string)
    ensures var parts := Split(SpeakerMarker, s);
      var i := FindMatch(SpeakerMarker, s, 0);
      && parts[0] == s[..i] && Flatten(parts[1..]) == s[i..]
      && (forall j :: 0 <= j < i ==> !MatchAt(SpeakerMarker, s, j))
  {
    var parts := Split(SpeakerMarker, s);
    var i := FindMatch(SpeakerMarker, s, 0);
    if i == |s| {
      SplitWithoutFirstMatch(SpeakerMarker, s);
      assert parts[1..] == [];
    } else {
      SplitAtFirstMatch(SpeakerMarker, s);
    }
    assert Flatten(parts) == parts[0] + Flatten(parts[1..]);
  }

  lemma SingleSpeakerExample()
    ensures Split(SpeakerMarker, "Speaker A: hello ") == ["", "Speaker A:", " hello "]
  {
    var s := "Speaker A: hello ";
    assert MatchAt(SpeakerMarker, s, 0) by {
      assert s[0..10] == "Speaker A:";
      assert s[0..10][..8] == SpeakerPrefix;
    }
    assert FindMatch(SpeakerMarker, s, 0) == 0;
    var rest := s[10..];
    assert rest == " hello ";
    forall i | 0 <= i <= |rest| ensures !MatchAt(SpeakerMarker, rest, i) {
    }
    SplitWithoutMatch(SpeakerMarker, rest);
    assert s[..0] == "" && s[0..10] == "Speaker A:";
    assert Split(SpeakerMarker, s) == [s[..0], s[0..10]] + Split(SpeakerMarker, rest);
  }
}
