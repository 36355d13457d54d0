/** The text transformers of the medical-record view: the two key-label
    formatters, the copy-to-clipboard converter `convertNoteToString`, the
    send-to-EMR converter `convertNoteForAPI`, and the split behind
    `highlightText`. */
module NoteText {
  import opened Strings
  import opened Json
  import opened LiteralSplit

  // ---------------------------------------------------------------------------
  // Key labels
  // ---------------------------------------------------------------------------

  /** `s.replace(/([A-Z])/g, ' $1')`: one space in front of every capital A-Z. */
  function SpaceBeforeCapitals(s: string): (r: string)
    ensures r == [] || !IsUpper(r[0])
  {
    if s == [] then []
    else if IsUpper(s[0]) then [' ', s[0]] + SpaceBeforeCapitals(s[1..])
    else [s[0]] + SpaceBeforeCapitals(s[1..])
  }

  function CapitalCount(s: string): nat {
    if s == [] then 0 else (if IsUpper(s[0]) then 1 else 0) + CapitalCount(s[1..])
  }

  /** Deletes each space that stands right before a capital: the inverse of `SpaceBeforeCapitals`. */
  function RemoveSpaceBeforeCapitals(s: string): string {
    if |s| >= 2 && s[0] == ' ' && IsUpper(s[1]) then [s[1]] + RemoveSpaceBeforeCapitals(s[2..])
    else if s == [] then []
    else [s[0]] + RemoveSpaceBeforeCapitals(s[1..])
  }

  /** Inserting the spaces adds exactly one character per capital, and removing
      the inserted spaces gives the key back, so no other change is made. */
  lemma {:induction false} SpaceBeforeCapitalsRoundTrip(s: string)
    ensures |SpaceBeforeCapitals(s)| == |s| + CapitalCount(s)
    ensures RemoveSpaceBeforeCapitals(SpaceBeforeCapitals(s)) == s
  {
    if s != [] {
      SpaceBeforeCapitalsRoundTrip(s[1..]);
      var rest := SpaceBeforeCapitals(s[1..]);
      if IsUpper(s[0]) {
        assert ([' ', s[0]] + rest)[2..] == rest;
      } else {
        var r := [s[0]] + rest;
        assert r[1..] == rest;
        if |r| >= 2 && r[0] == ' ' {
          assert r[1] == rest[0];
        }
      }
    }
  }

  /** In a spaced-out key every capital has a space in front of it. */
  lemma {:induction false} CapitalsArePreceded(s: string, i: nat)
    requires i < |SpaceBeforeCapitals(s)| && IsUpper(SpaceBeforeCapitals(s)[i])
    ensures i >= 1 && SpaceBeforeCapitals(s)[i - 1] == ' '
  {
    var r := SpaceBeforeCapitals(s);
    var rest := SpaceBeforeCapitals(s[1..]);
    if IsUpper(s[0]) {
      if i >= 2 {
        CapitalsArePreceded(s[1..], i - 2);
      }
    } else {
      assert i != 0;
      CapitalsArePreceded(s[1..], i - 1);
    }
  }

  /** `.replace(/^./, str => str.toUpperCase())`. */
  function UpperFirst(s: string): (r: string)
    ensures |r| == |s|
    ensures s != [] ==> r[0] == UpperChar(s[0]) && r[1..] == s[1..]
  {
    if s == [] then [] else [UpperChar(s[0])] + s[1..]
  }

  /** Capitalising changes only the case of the first letter: the label reads
      the same ignoring case, and it never starts with a lower-case letter. */
  lemma UpperFirstChangesOnlyCase(s: string)
    ensures Lower(UpperFirst(s)) == Lower(s)
    ensures UpperFirst(s) != [] ==> !IsLowerAscii(UpperFirst(s)[0])
  {
    var r := UpperFirst(s);
    forall i | 0 <= i < |s| ensures Lower(r)[i] == Lower(s)[i] {
      if i > 0 {
        assert r[i] == r[1..][i - 1] == s[1..][i - 1] == s[i];
      }
    }
  }

  /** The label of a key in the on-screen note (MedicalRecordView.tsx:147, 200, 256). */
  function DisplayLabel(key: string): string {
    UpperFirst(SpaceBeforeCapitals(key))
  }

  /** The label of a key in copied text: whitespace deleted and '_' turned into
      ' ' before the capitals are spaced out (MedicalRecordView.tsx:341). */
  function CopyLabel(key: string): string {
    UpperFirst(SpaceBeforeCapitals(ReplaceAll(RemoveWhitespace(key), '_', ' ')))
  }

  /** A key that starts with a capital gets a label with a leading space. */
  lemma LabelsOfCapitalisedKey(key: string)
    requires key != [] && IsUpper(key[0])
    ensures |DisplayLabel(key)| >= 2 && DisplayLabel(key)[0] == ' ' && DisplayLabel(key)[1] == key[0]
    ensures |CopyLabel(key)| >= 2 && CopyLabel(key)[0] == ' ' && CopyLabel(key)[1] == key[0]
  {
    var c := ReplaceAll(RemoveWhitespace(key), '_', ' ');
    assert !IsWhitespace(key[0]);
    assert RemoveWhitespace(key) == [key[0]] + RemoveWhitespace(key[1..]);
    assert c[0] == key[0];
  }

  lemma {:induction false} SpaceBeforeCapitalsAppend(a: string, b: string)
    ensures SpaceBeforeCapitals(a + b) == SpaceBeforeCapitals(a) + SpaceBeforeCapitals(b)
  {
    if a == [] {
      assert a + b == b;
    } else {
      var ab := a + b;
      assert ab[0] == a[0] && ab[1..] == a[1..] + b;
      SpaceBeforeCapitalsAppend(a[1..], b);
      var head := if IsUpper(a[0]) then [' ', a[0]] else [a[0]];
      assert SpaceBeforeCapitals(ab) == head + SpaceBeforeCapitals(a[1..] + b);
      assert SpaceBeforeCapitals(a) == head + SpaceBeforeCapitals(a[1..]);
    }
  }

  /** A key without capitals is left as it is. */
  lemma {:induction false} SpaceBeforeNoCapitals(s: string)
    requires forall i :: 0 <= i < |s| ==> !IsUpper(s[i])
    ensures SpaceBeforeCapitals(s) == s
  {
    if s != [] {
      SpaceBeforeNoCapitals(s[1..]);
      assert [s[0]] + s[1..] == s;
    }
  }

  lemma ChiefComplaintLabel()
    ensures DisplayLabel("ChiefComplaint") == " Chief Complaint"
  {
    SpacedChiefComplaint();
    assert UpperFirst(" Chief Complaint") == " Chief Complaint";
  }

  /** A capital followed by no further capitals gains just the leading space. */
  lemma SpacedWord(c: char, rest: string)
    requires IsUpper(c)
    requires forall i :: 0 <= i < |rest| ==> !IsUpper(rest[i])
    ensures SpaceBeforeCapitals([c] + rest) == [' ', c] + rest
  {
    SpaceBeforeNoCapitals(rest);
    assert ([c] + rest)[1..] == rest;
  }

  lemma SpacedChief()
    ensures SpaceBeforeCapitals("Chief") == " Chief"
  {
    SpacedWord('C', "hief");
    assert [' ', 'C'] + "hief" == " Chief";
  }

  lemma SpacedComplaint()
    ensures SpaceBeforeCapitals("Complaint") == " Complaint"
  {
    SpacedWord('C', "omplaint");
    assert ['C'] + "omplaint" == "Complaint";
    assert [' ', 'C'] + "omplaint" == " Complaint";
  }

  lemma SpacedChiefComplaint()
    ensures SpaceBeforeCapitals("ChiefComplaint") == " Chief Complaint"
  {
    SpacedChief();
    SpacedComplaint();
    SpaceBeforeCapitalsAppend("Chief", "Complaint");
    assert "Chief" + "Complaint" == "ChiefComplaint";
    assert " Chief" + " Complaint" == " Chief Complaint";
  }

  lemma ReplaceAbsent(s: string, c: char, d: char)
    requires c !in s
    ensures ReplaceAll(s, c, d) == s
  {
    var r := ReplaceAll(s, c, d);
    forall i | 0 <= i < |s| ensures r[i] == s[i] {
      assert s[i] in s;
    }
  }

  /** A text without whitespace is left as it is by `RemoveWhitespace`. */
  lemma {:induction false} RemoveWhitespaceOfPlain(s: string)
    requires forall i :: 0 <= i < |s| ==> !IsWhitespace(s[i])
    ensures RemoveWhitespace(s) == s
  {
    if s != [] {
      RemoveWhitespaceOfPlain(s[1..]);
      assert [s[0]] + s[1..] == s;
    }
  }

  /** A copy label never contains a line break or an underscore: all
      whitespace was deleted and every '_' turned into ' ' before only plain
      spaces were added back. */
  lemma CopyLabelCharacters(key: string)
    ensures '\n' !in CopyLabel(key) && '_' !in CopyLabel(key)
  {
    var a := RemoveWhitespace(key);
    var b := ReplaceAll(a, '_', ' ');
    assert '\n' !in b;
    assert '_' !in b;
    AbsentAfterSpacing(b, '\n');
    AbsentAfterSpacing(b, '_');
  }

  lemma {:induction false} AbsentAfterSpacing(s: string, c: char)
    requires c !in s && c != ' ' && !IsUpper(c)
    ensures c !in SpaceBeforeCapitals(s) && c !in UpperFirst(SpaceBeforeCapitals(s))
  {
    if s != [] {
      assert c !in s[1..];
      AbsentAfterSpacing(s[1..], c);
    }
  }

  /** The display label is the key with a space before every capital and an
      upper-case first letter: one character longer per capital, equal to the
      spaced-out key ignoring case, and, for a key that does not start with a
      lower-case letter, giving the key back once the spaces are removed. */
  lemma DisplayLabelSpacesCapitals(key: string)
    ensures |DisplayLabel(key)| == |key| + CapitalCount(key)
    ensures Lower(DisplayLabel(key)) == Lower(SpaceBeforeCapitals(key))
    ensures DisplayLabel(key) != [] ==> !IsLowerAscii(DisplayLabel(key)[0])
    ensures (key == [] || !IsLowerAscii(key[0])) ==> RemoveSpaceBeforeCapitals(DisplayLabel(key)) == key
  {
    var sp := SpaceBeforeCapitals(key);
    SpaceBeforeCapitalsRoundTrip(key);
    UpperFirstChangesOnlyCase(sp);
    if key != [] && !IsLowerAscii(key[0]) {
      assert sp[0] == ' ' || sp[0] == key[0];
      assert UpperFirst(sp) == [sp[0]] + sp[1..] == sp;
    }
  }

  /** For a key without whitespace or underscores, the copied label is the
      display label. */
  lemma CopyLabelOfPlainKey(key: string)
    requires forall i :: 0 <= i < |key| ==> !IsWhitespace(key[i]) && key[i] != '_'
    ensures CopyLabel(key) == DisplayLabel(key)
  {
    RemoveWhitespaceOfPlain(key);
    ReplaceAbsent(key, '_', ' ');
  }

  // ---------------------------------------------------------------------------
  // convertNoteToString: the text copied for one note section
  // ---------------------------------------------------------------------------

  function NoteToString(v: Json): string
  {
    match v
    case Null => ""
    case Str(s) => if s == "None" then "" else s
    case Arr(items) =>
      Join(seq(|items|, k requires 0 <= k < |items| => NoteToString(items[k])), "\n")
    case Obj(entries) =>
      Join(seq(|entries|, k requires 0 <= k < |entries| =>
        CopyLabel(entries[k].0) + ": " + NoteToString(entries[k].1)), "\n")
    case Num(_) => ""
    case Bool(_) => ""
  }

  /** The lines of a section's copied text, defined value by value: a string
      gives its own lines, an array the lines of its items one after another,
      an object the lines of its entries, each entry's first line prefixed by
      its label, and everything else a single empty line. */
  function CopyLines(v: Json): seq<string>
  {
    match v
    case Str(s) => if s == "None" then [""] else Lines(s)
    case Arr(items) =>
      if items == [] then [""]
      else Flatten(seq(|items|, k requires 0 <= k < |items| => CopyLines(items[k])))
    case Obj(entries) =>
      if entries == [] then [""]
      else Flatten(seq(|entries|, k requires 0 <= k < |entries| =>
        LabelledLines(CopyLabel(entries[k].0), CopyLines(entries[k].1))))
    case _ => [""]
  }

  function LabelledLines(name: string, ls: seq<string>): seq<string> {
    if ls == [] then [name + ": "] else [name + ": " + ls[0]] + ls[1..]
  }

  /** `convertNoteToString` produces exactly the lines `CopyLines` describes. */
  lemma {:induction false} NoteToStringLines(v: Json)
    ensures Lines(NoteToString(v)) == CopyLines(v)
    decreases v
  {
    match v
    case Arr(items) =>
      if items != [] {
        ArrayCopyLines(items);
        forall k | 0 <= k < |items| ensures Lines(NoteToString(items[k])) == CopyLines(items[k]) {
          NoteToStringLines(items[k]);
        }
        assert seq(|items|, k requires 0 <= k < |items| => Lines(NoteToString(items[k])))
          == seq(|items|, k requires 0 <= k < |items| => CopyLines(items[k]));
      }
    case Obj(entries) =>
      if entries != [] {
        ObjectCopyLines(entries);
        forall k | 0 <= k < |entries|
          ensures Lines(EntryLine(entries[k])) == LabelledLines(CopyLabel(entries[k].0), CopyLines(entries[k].1))
        {
          var name := CopyLabel(entries[k].0);
          CopyLabelCharacters(entries[k].0);
          assert '\n' !in name + ": ";
          LinesAfterPlain(name + ": ", NoteToString(entries[k].1));
          NoteToStringLines(entries[k].1);
        }
        assert seq(|entries|, k requires 0 <= k < |entries| => Lines(EntryLine(entries[k])))
          == seq(|entries|, k requires 0 <= k < |entries| =>
               LabelledLines(CopyLabel(entries[k].0), CopyLines(entries[k].1)));
      }
    case _ =>
  }

  /** The line an object entry is copied as. */
  function EntryLine(e: (string, Json)): string {
    CopyLabel(e.0) + ": " + NoteToString(e.1)
  }

  /** Null and "None" copy as nothing, numbers and booleans are dropped, other
      strings are copied as they are. */
  lemma NoteToStringScalars(s: string, n: int, b: bool)
    ensures NoteToString(Null) == "" && NoteToString(Str("None")) == ""
    ensures s != "None" ==> NoteToString(Str(s)) == s
    ensures NoteToString(Num(n)) == "" && NoteToString(Bool(b)) == ""
    ensures NoteToString(Arr([])) == "" && NoteToString(Obj([])) == ""
  {
  }

  /** The lines of a copied array are the lines of its items, in item order. */
  lemma ArrayCopyLines(items: seq<Json>)
    requires |items| >= 1
    ensures Lines(NoteToString(Arr(items)))
      == Flatten(seq(|items|, k requires 0 <= k < |items| => Lines(NoteToString(items[k]))))
  {
    var parts := seq(|items|, k requires 0 <= k < |items| => NoteToString(items[k]));
    LinesOfJoin(parts);
    assert seq(|parts|, k requires 0 <= k < |parts| => Lines(parts[k]))
      == seq(|items|, k requires 0 <= k < |items| => Lines(NoteToString(items[k])));
  }

  /** The lines of a copied object are those of its "Label: value" entries, in entry order. */
  lemma ObjectCopyLines(entries: seq<(string, Json)>)
    requires |entries| >= 1
    ensures Lines(NoteToString(Obj(entries)))
      == Flatten(seq(|entries|, k requires 0 <= k < |entries| => Lines(EntryLine(entries[k]))))
  {
    var parts := seq(|entries|, k requires 0 <= k < |entries| => EntryLine(entries[k]));
    assert seq(|entries|, k requires 0 <= k < |entries| =>
      CopyLabel(entries[k].0) + ": " + NoteToString(entries[k].1)) == parts;
    LinesOfJoin(parts);
    assert seq(|parts|, k requires 0 <= k < |parts| => Lines(parts[k]))
      == seq(|entries|, k requires 0 <= k < |entries| => Lines(EntryLine(entries[k])));
  }

  /** An object whose values are one-line strings copies as exactly one
      "Label: value" line per entry, in entry order. */
  lemma FlatObjectCopyLines(entries: seq<(string, Json)>)
    requires |entries| >= 1
    requires forall k :: 0 <= k < |entries| ==> entries[k].1.Str? && '\n' !in entries[k].1.s
    ensures var lines := Lines(NoteToString(Obj(entries)));
      && |lines| == |entries|
      && forall k :: 0 <= k < |entries| ==> lines[k] == EntryLine(entries[k])
  {
    ObjectCopyLines(entries);
    var ls := seq(|entries|, k requires 0 <= k < |entries| => Lines(EntryLine(entries[k])));
    forall k | 0 <= k < |entries| ensures ls[k] == [EntryLine(entries[k])] {
      CopyLabelCharacters(entries[k].0);
      var line := EntryLine(entries[k]);
      assert '\n' !in NoteToString(entries[k].1);
      assert '\n' !in line by {
        assert line == CopyLabel(entries[k].0) + ": " + NoteToString(entries[k].1);
      }
      LinesOfNewlineFree(line);
    }
    FlattenSingletons(ls, seq(|entries|, k requires 0 <= k < |entries| => EntryLine(entries[k])));
  }

  lemma {:induction false} FlattenSingletons<T>(xss: seq<seq<T>>, xs: seq<T>)
    requires |xss| == |xs| && forall k :: 0 <= k < |xs| ==> xss[k] == [xs[k]]
    ensures Flatten(xss) == xs
  {
    if xs != [] {
      FlattenSingletons(xss[1..], xs[1..]);
    }
  }

  lemma ChiefComplaintCopyLabel()
    ensures CopyLabel("ChiefComplaint") == " Chief Complaint"
  {
    ChiefComplaintKeptWhole();
    ChiefComplaintHasNoUnderscore();
    SpacedChiefComplaint();
  }

  lemma ChiefComplaintKeptWhole()
    ensures RemoveWhitespace("ChiefComplaint") == "ChiefComplaint"
  {
    RemoveWhitespaceOfPlain("ChiefComplaint");
  }

  lemma ChiefComplaintHasNoUnderscore()
    ensures ReplaceAll("ChiefComplaint", '_', ' ') == "ChiefComplaint"
  {
    ReplaceAbsent("ChiefComplaint", '_', ' ');
  }

  /** A one-entry note with a string value copies as the single line
      "Label: value"; for the key "ChiefComplaint" the label is " Chief Complaint"
      (`ChiefComplaintCopyLabel`). */
  lemma SingleEntryCopy(key: string, value: string)
    requires value != "None"
    ensures NoteToString(Obj([(key, Str(value))])) == CopyLabel(key) + ": " + value
  {
    var e := (key, Str(value));
    var parts := seq(1, k requires 0 <= k < 1 => CopyLabel([e][k].0) + ": " + NoteToString([e][k].1));
    assert parts == [CopyLabel(key) + ": " + value];
    assert Join(parts, "\n") == parts[0];
  }

  // ---------------------------------------------------------------------------
  // convertNoteForAPI: the note value sent to the EMR
  // ---------------------------------------------------------------------------

  /** `${key}: ${value}` pairs of an object or array item, joined by single spaces. */
  function PairsText(entries: seq<(string, Json)>): string {
    Join(seq(|entries|, k requires 0 <= k < |entries| => entries[k].0 + ": " + JsToString(entries[k].1)), " ")
  }

  /** What one array item becomes: object-like items (non-null objects and
      arrays) as their pairs, everything else as `String(item)`. */
  function ApiItem(item: Json): string {
    if item.Obj? || item.Arr? then PairsText(EntriesOf(item)) else JsToString(item)
  }

  predicate IsApiValue(v: Json) {
    v.Str? || (v.Arr? && forall k :: 0 <= k < |v.items| ==> v.items[k].Str?)
  }

  /** `convertNoteForAPI`: a string, or for an array an array of strings of the same length. */
  function NoteForApi(v: Json): (r: Json)
    ensures IsApiValue(r)
    ensures v.Arr? <==> r.Arr?
    ensures v.Arr? ==> (|r.items| == |v.items|
      && forall k :: 0 <= k < |v.items| ==> r.items[k] == Str(ApiItem(v.items[k])))
  {
    match v
    case Null => Str("")
    case Str(s) => if s == "None" || s == "" then Str("") else Str(s)
    case Arr(items) => Arr(seq(|items|, k requires 0 <= k < |items| => Str(ApiItem(items[k]))))
    case Obj(entries) =>
      Str(Join(seq(|entries|, k requires 0 <= k < |entries| =>
        entries[k].0 + ": " + JsToString(NoteForApi(entries[k].1))), " "))
    case Num(_) => Str(JsToString(v))
    case Bool(_) => Str(JsToString(v))
  }

  /** Null, "None" and "" become "", other strings are kept, other scalars are
      written with `String`; inside an array a null item becomes "null". */
  lemma NoteForApiScalars(s: string, b: bool, n: int)
    ensures NoteForApi(Null) == Str("") && NoteForApi(Str("None")) == Str("")
    ensures s != "None" ==> NoteForApi(Str(s)) == Str(s)
    ensures NoteForApi(Bool(b)) == Str(if b then "true" else "false")
    ensures NoteForApi(Num(n)) == Str(JsToString(Num(n)))
    ensures NoteForApi(Arr([Null])) == Arr([Str("null")])
  {
  }

  /** A value the object case passes through as it is: a string other than
      "None", a number or a boolean. */
  predicate PlainApiValue(v: Json) {
    (v.Str? && v.s != "None") || v.Num? || v.Bool?
  }

  /** An object whose values are all plain goes out as its `key: value` pairs
      joined by spaces. */
  lemma {:induction false} ObjectForApiIsPairs(entries: seq<(string, Json)>)
    requires forall k :: 0 <= k < |entries| ==> PlainApiValue(entries[k].1)
    ensures NoteForApi(Obj(entries)) == Str(PairsText(entries))
  {
    var sent := seq(|entries|, k requires 0 <= k < |entries| =>
      entries[k].0 + ": " + JsToString(NoteForApi(entries[k].1)));
    var plain := seq(|entries|, k requires 0 <= k < |entries| =>
      entries[k].0 + ": " + JsToString(entries[k].1));
    forall k | 0 <= k < |entries| ensures sent[k] == plain[k] {
      assert JsToString(NoteForApi(entries[k].1)) == JsToString(entries[k].1);
    }
    assert sent == plain;
  }

  /** An array of strings goes out unchanged. */
  lemma StringArrayForApi(items: seq<Json>)
    requires forall k :: 0 <= k < |items| ==> items[k].Str?
    ensures NoteForApi(Arr(items)) == Arr(items)
  {
    var r := NoteForApi(Arr(items));
    assert |r.items| == |items|;
    forall k | 0 <= k < |items| ensures r.items[k] == items[k] {
    }
  }

  /** A nested array inside an object is written with commas (template-literal
      conversion of the inner result). */
  lemma NestedArrayForApi()
    ensures NoteForApi(Obj([("Plan", Arr([Str("rest"), Str("drops")]))])) == Str("Plan: rest,drops")
  {
    InnerArrayText();
    var es := [("Plan", Arr([Str("rest"), Str("drops")]))];
    var parts := seq(|es|, k requires 0 <= k < |es| => es[k].0 + ": " + JsToString(NoteForApi(es[k].1)));
    assert parts[0] == "Plan" + ": " + "rest,drops";
    assert |parts| == 1;
    assert Join(parts, " ") == parts[0];
  }

  lemma InnerArrayText()
    ensures JsToString(NoteForApi(Arr([Str("rest"), Str("drops")]))) == "rest,drops"
  {
    var inner := NoteForApi(Arr([Str("rest"), Str("drops")]));
    StringArrayForApi([Str("rest"), Str("drops")]);
    var its := inner.items;
    assert seq(|its|, k requires 0 <= k < |its| => if its[k].Null? then "" else JsToString(its[k]))
      == ["rest", "drops"];
    assert Join(["rest", "drops"], ",") == "rest" + "," + Join(["drops"], ",");
  }

  // ---------------------------------------------------------------------------
  // highlightText
  // ---------------------------------------------------------------------------

  datatype Piece = Piece(text: string, marked: bool)

  datatype Highlighted =
    | Whole(text: string)          // the text as one unmarked span
    | Pieces(pieces: seq<Piece>)   // the split parts, some of them marked

  function PieceTexts(ps: seq<Piece>): (r: seq<string>)
    ensures |r| == |ps| && forall k :: 0 <= k < |ps| ==> r[k] == ps[k].text
  {
    seq(|ps|, k requires 0 <= k < |ps| => ps[k].text)
  }

  /** `highlightText(text, highlight)` for a highlight without regular-expression
      metacharacters: blank highlights leave the text whole; otherwise the text is
      split around case-insensitive occurrences and a piece is marked when it
      equals the highlight ignoring case. */
  function HighlightText(text: string, highlight: string): (r: Highlighted)
    ensures r.Whole? <==> IsBlank(highlight)
    ensures r.Whole? ==> r.text == text
    ensures r.Pieces? ==> |r.pieces| % 2 == 1
  {
    if Trim(highlight) == [] then Whole(text)
    else
      assert |highlight| > 0;
      var parts := Split(Literal(highlight), text);
      Pieces(seq(|parts|, k requires 0 <= k < |parts| =>
        Piece(parts[k], EqualsIgnoreCase(parts[k], highlight))))
  }

  lemma BlankHighlight(text: string, highlight: string)
    requires IsBlank(highlight)
    ensures HighlightText(text, highlight) == Whole(text)
  {
  }

  /** With a non-blank highlight the pieces read back as the text, and a piece is
      marked exactly when it is an occurrence of the highlight (every other
      piece, starting with the second). */
  lemma HighlightPieces(text: string, highlight: string)
    requires !IsBlank(highlight)
    ensures HighlightText(text, highlight).Pieces?
    ensures var ps := HighlightText(text, highlight).pieces;
      && Flatten(PieceTexts(ps)) == text
      && forall k :: 0 <= k < |ps| ==> (ps[k].marked <==> k % 2 == 1)
  {
    var p := Literal(highlight);
    var parts := Split(p, text);
    var ps := HighlightText(text, highlight).pieces;
    assert PieceTexts(ps) == parts;
    forall k | 0 <= k < |ps| ensures ps[k].marked <==> k % 2 == 1 {
      if k % 2 == 0 && ps[k].marked {
        var c := parts[k];
        assert |c| == |highlight|;
        assert c[0..|highlight|] == c;
        assert MatchAt(p, c, 0);
      }
    }
  }
}
