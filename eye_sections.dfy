/** How the note renderer lays out an eye-exam object: as an OD/OS table when
    the object has its own "OD" and "OS" properties (the anterior-segment
    shape) or keys ending in " OD"/" OS" (the posterior-segment shape), and as
    a plain list of fields otherwise. The table's rows are collected in a
    `sections` dictionary inside `forEach` loops. */
module EyeSections {
  import opened Strings
  import opened Json

  datatype Side = OD | OS

  /** One `sections[name].OD = value` (or `.OS`) step of a grouping loop. */
  datatype Assign = Assign(name: string, side: Side, value: Json)

  /** Names a property lookup on a fresh `{}` finds through Object.prototype
      although the object has no own property of that name. */
  const ObjectPrototypeNames: set<string> := {
    "constructor", "toString", "toLocaleString", "valueOf", "hasOwnProperty",
    "isPrototypeOf", "propertyIsEnumerable",
    "__defineGetter__", "__defineSetter__", "__lookupGetter__", "__lookupSetter__"
  }

  /** The `sections` dictionary: its own keys in insertion order and the OD and OS cell of each. */
  datatype Sections = Sections(keys: seq<string>, od: map<string, Json>, os: map<string, Json>)

  // ---------------------------------------------------------------------------
  // What the grouping loops compute, stated declaratively
  // ---------------------------------------------------------------------------

  /** The section names in the order each was first assigned, leaving out the
      names in `inherited` (for those `!sections[name]` is false, so no own row
      is ever created). */
  function Created(xs: seq<Assign>, inherited: set<string>): seq<string>
    decreases |xs|
  {
    if xs == [] then []
    else
      var prev := Created(xs[..|xs| - 1], inherited);
      var n := xs[|xs| - 1].name;
      if n in inherited || n in prev then prev else prev + [n]
  }

  /** The value last assigned to one cell, or the initial '' when it never was. */
  function LastValue(xs: seq<Assign>, name: string, side: Side): Json
    decreases |xs|
  {
    if xs == [] then Str("")
    else if xs[|xs| - 1].name == name && xs[|xs| - 1].side == side then xs[|xs| - 1].value
    else LastValue(xs[..|xs| - 1], name, side)
  }

  /** One side's cells of the rows `names`. */
  function Cells(xs: seq<Assign>, names: seq<string>, side: Side): map<string, Json> {
    map n | n in names :: LastValue(xs, n, side)
  }

  function Grouped(xs: seq<Assign>, inherited: set<string>): (r: Sections)
    ensures forall n :: n in r.keys ==> n in r.od && n in r.os
  {
    var names := Created(xs, inherited);
    Sections(names, Cells(xs, names, OD), Cells(xs, names, OS))
  }

  /** A name is a section exactly when it was assigned at least once and is not inherited. */
  lemma {:induction false} CreatedMembers(xs: seq<Assign>, inherited: set<string>, n: string)
    ensures n in Created(xs, inherited) <==>
      (n !in inherited && exists i :: 0 <= i < |xs| && xs[i].name == n)
    decreases |xs|
  {
    if xs != [] {
      var p := xs[..|xs| - 1];
      CreatedMembers(p, inherited, n);
      if n !in inherited && exists i :: 0 <= i < |xs| && xs[i].name == n {
        var i :| 0 <= i < |xs| && xs[i].name == n;
        if i < |p| {
          assert p[i].name == n;
        }
      }
      if exists i :: 0 <= i < |p| && p[i].name == n {
        var i :| 0 <= i < |p| && p[i].name == n;
        assert xs[i].name == n;
      }
    }
  }

  /** Each section name is created once. */
  lemma {:induction false} CreatedDistinct(xs: seq<Assign>, inherited: set<string>)
    ensures Distinct(Created(xs, inherited))
    decreases |xs|
  {
    if xs != [] {
      CreatedDistinct(xs[..|xs| - 1], inherited);
    }
  }

  lemma {:induction false} NeverAssignedIsEmpty(xs: seq<Assign>, name: string, side: Side)
    requires forall i :: 0 <= i < |xs| ==> xs[i].name != name
    ensures LastValue(xs, name, side) == Str("")
    decreases |xs|
  {
    if xs != [] {
      NeverAssignedIsEmpty(xs[..|xs| - 1], name, side);
    }
  }

  /** A cell holds the value of the last assignment to it: later assignments overwrite earlier ones. */
  lemma {:induction false} LastAssignmentWins(xs: seq<Assign>, i: nat)
    requires i < |xs|
    requires forall j :: i < j < |xs| ==> !(xs[j].name == xs[i].name && xs[j].side == xs[i].side)
    ensures LastValue(xs, xs[i].name, xs[i].side) == xs[i].value
    decreases |xs|
  {
    if i < |xs| - 1 {
      var p := xs[..|xs| - 1];
      LastAssignmentWins(p, i);
    }
  }

  /** Sections are created in the order of their first assignment. */
  lemma {:induction false} CreatedInFirstAssignmentOrder(xs: seq<Assign>, inherited: set<string>, i: nat, j: nat)
    requires i < j < |Created(xs, inherited)|
    ensures exists p :: (0 <= p < |xs| && xs[p].name == Created(xs, inherited)[i]
      && forall q :: 0 <= q <= p ==> xs[q].name != Created(xs, inherited)[j])
    decreases |xs|
  {
    var c := Created(xs, inherited);
    var pre := xs[..|xs| - 1];
    var cp := Created(pre, inherited);
    if j < |cp| {
      assert c[..|cp|] == cp;
      CreatedInFirstAssignmentOrder(pre, inherited, i, j);
      var p :| 0 <= p < |pre| && pre[p].name == cp[i] && forall q :: 0 <= q <= p ==> pre[q].name != cp[j];
      assert xs[p].name == c[i];
      assert forall q :: 0 <= q <= p ==> xs[q].name == pre[q].name;
    } else {
      assert c == cp + [xs[|xs| - 1].name] && j == |cp|;
      CreatedMembers(pre, inherited, c[i]);
      var p :| 0 <= p < |pre| && pre[p].name == c[i];
      forall q | 0 <= q <= p ensures xs[q].name != c[j] {
        if xs[q].name == c[j] {
          assert pre[q].name == c[j];
          CreatedMembers(pre, inherited, c[j]);
        }
      }
    }
  }

  // ---------------------------------------------------------------------------
  // The loop body `if (!sections[key]) sections[key] = { OD: '', OS: '' };
  // sections[key].OD = value;`
  // ---------------------------------------------------------------------------

  /** One step of a grouping loop. A name found through the prototype is never
      given an own row, and the assignment then lands on the inherited member,
      leaving `sections` as it was. */
  method Place(s: Sections, a: Assign, inherited: set<string>, ghost done: seq<Assign>) returns (r: Sections)
    requires s == Grouped(done, inherited)
    ensures r == Grouped(done + [a], inherited)
  {
    var found := a.name in s.od || a.name in inherited;
    r := s;
    if !found {
      r := Sections(r.keys + [a.name], r.od[a.name := Str("")], r.os[a.name := Str("")]);
    }
    if a.name in r.od {
      if a.side == OD {
        r := r.(od := r.od[a.name := a.value]);
      } else {
        r := r.(os := r.os[a.name := a.value]);
      }
    }
    PlaceIsGroupedStep(s, a, inherited, done, r);
  }

  lemma CreatedStep(done: seq<Assign>, a: Assign, inherited: set<string>)
    ensures Created(done + [a], inherited) ==
      var prev := Created(done, inherited);
      if a.name in inherited || a.name in prev then prev else prev + [a.name]
  {
    var xs := done + [a];
    assert xs[..|xs| - 1] == done;
  }

  lemma LastValueStep(done: seq<Assign>, a: Assign, name: string, side: Side)
    ensures LastValue(done + [a], name, side) ==
      if a.name == name && a.side == side then a.value else LastValue(done, name, side)
  {
    var xs := done + [a];
    assert xs[..|xs| - 1] == done;
  }

  lemma PlaceIsGroupedStep(s: Sections, a: Assign, inherited: set<string>, done: seq<Assign>, r: Sections)
    requires s == Grouped(done, inherited)
    requires var t := if a.name in s.od || a.name in inherited then s
               else Sections(s.keys + [a.name], s.od[a.name := Str("")], s.os[a.name := Str("")]);
      r == if a.name !in t.od then t
           else if a.side == OD then t.(od := t.od[a.name := a.value])
           else t.(os := t.os[a.name := a.value])
    ensures r == Grouped(done + [a], inherited)
  {
    CreatedStep(done, a, inherited);
    if a.name in inherited {
      CreatedMembers(done, inherited, a.name);
      SkippedStep(done, a, inherited);
    } else {
      var t := if a.name in s.od then s
               else Sections(s.keys + [a.name], s.od[a.name := Str("")], s.os[a.name := Str("")]);
      if a.name !in s.od {
        CreatedMembers(done, inherited, a.name);
        NeverAssignedIsEmpty(done, a.name, OD);
        NeverAssignedIsEmpty(done, a.name, OS);
      }
      AssignedStep(done, a, inherited, t, r);
    }
  }

  /** An inherited name changes nothing. */
  lemma SkippedStep(done: seq<Assign>, a: Assign, inherited: set<string>)
    requires a.name in inherited
    ensures Grouped(done + [a], inherited) == Grouped(done, inherited)
  {
    CreatedStep(done, a, inherited);
    var g := Grouped(done + [a], inherited);
    var s := Grouped(done, inherited);
    CreatedMembers(done, inherited, a.name);
    forall n | n in s.keys ensures g.od[n] == s.od[n] && g.os[n] == s.os[n] {
      LastValueStep(done, a, n, OD);
      LastValueStep(done, a, n, OS);
    }
  }

  /** A name with a row gets its cell overwritten. */
  lemma AssignedStep(done: seq<Assign>, a: Assign, inherited: set<string>, t: Sections, r: Sections)
    requires a.name !in inherited
    requires t.keys == Created(done + [a], inherited)
    requires forall n :: n in t.keys <==> n in t.od
    requires forall n :: n in t.keys <==> n in t.os
    requires forall n :: n in t.od ==> t.od[n] == LastValue(done, n, OD) && t.os[n] == LastValue(done, n, OS)
    requires r == if a.side == OD then t.(od := t.od[a.name := a.value]) else t.(os := t.os[a.name := a.value])
    ensures r == Grouped(done + [a], inherited)
  {
    var xs := done + [a];
    var names := Created(xs, inherited);
    CreatedStep(done, a, inherited);
    assert a.name in names;
    AssignedCells(done, a, names, t.od, OD, r.od);
    AssignedCells(done, a, names, t.os, OS, r.os);
  }

  /** The cells of one side after an assignment to a name that has a row. */
  lemma AssignedCells(done: seq<Assign>, a: Assign, names: seq<string>, m: map<string, Json>, side: Side,
                      res: map<string, Json>)
    requires a.name in names
    requires forall n :: n in names <==> n in m
    requires forall n :: n in m ==> m[n] == LastValue(done, n, side)
    requires res == if a.side == side then m[a.name := a.value] else m
    ensures res == Cells(done + [a], names, side)
  {
    var want := Cells(done + [a], names, side);
    forall n | n in names ensures n in res && res[n] == want[n] {
      LastValueStep(done, a, n, side);
    }
    SameMap(res, want);
  }

  lemma SameMap(m1: map<string, Json>, m2: map<string, Json>)
    requires forall n :: n in m1 <==> n in m2
    requires forall n :: n in m1 ==> m1[n] == m2[n]
    ensures m1 == m2
  {
  }

  // ---------------------------------------------------------------------------
  // The two grouping shapes
  // ---------------------------------------------------------------------------

  function SideAssigns(entries: seq<(string, Json)>, side: Side): (r: seq<Assign>)
    ensures |r| == |entries|
    ensures forall k :: 0 <= k < |r| ==> r[k] == Assign(entries[k].0, side, entries[k].1)
  {
    seq(|entries|, k requires 0 <= k < |entries| => Assign(entries[k].0, side, entries[k].1))
  }

  /** `if (data.OD && typeof data.OD === 'object') Object.entries(data.OD).forEach(...)`. */
  function SideOf(v: Json, side: Side): seq<Assign> {
    if Truthy(v) && IsObjectType(v) then SideAssigns(EntriesOf(v), side) else []
  }

  /** Anterior-segment shape: every entry of `data.OD`, then every entry of `data.OS`. */
  function DirectAssigns(entries: seq<(string, Json)>): seq<Assign> {
    SideOf(Lookup(entries, "OD"), OD) + SideOf(Lookup(entries, "OS"), OS)
  }

  method AddSide(s: Sections, v: Json, side: Side, inherited: set<string>, ghost done: seq<Assign>)
    returns (r: Sections)
    requires s == Grouped(done, inherited)
    ensures r == Grouped(done + SideOf(v, side), inherited)
  {
    r := s;
    if Truthy(v) && IsObjectType(v) {
      var es := EntriesOf(v);
      ghost var acc := done;
      var i := 0;
      while i < |es|
        invariant 0 <= i <= |es|
        invariant acc == done + SideAssigns(es[..i], side)
        invariant r == Grouped(acc, inherited)
      {
        var a := Assign(es[i].0, side, es[i].1);
        r := Place(r, a, inherited, acc);
        SideAssignsPrefix(es, i, side);
        acc := acc + [a];
        i := i + 1;
      }
      assert es[..i] == es;
    } else {
      assert done + [] == done;
    }
  }

  lemma SideAssignsPrefix(es: seq<(string, Json)>, i: nat, side: Side)
    requires i < |es|
    ensures SideAssigns(es[..i + 1], side) == SideAssigns(es[..i], side) + [Assign(es[i].0, side, es[i].1)]
  {
  }

  /** The `sections` of the anterior-segment shape (MedicalRecordView.tsx:76-96). */
  method GroupDirect(entries: seq<(string, Json)>, inherited: set<string>) returns (s: Sections)
    ensures s == Grouped(DirectAssigns(entries), inherited)
  {
    s := Sections([], map[], map[]);
    assert s == Grouped([], inherited);
    s := AddSide(s, Lookup(entries, "OD"), OD, inherited, []);
    assert [] + SideOf(Lookup(entries, "OD"), OD) == SideOf(Lookup(entries, "OD"), OD);
    s := AddSide(s, Lookup(entries, "OS"), OS, inherited, SideOf(Lookup(entries, "OD"), OD));
  }

  /** Where the posterior-segment loop sends one entry. */
  datatype Route = ToSection(a: Assign) | ToOthers

  /** The four branches of the posterior-segment loop: " OD"/" OS" suffixes
      (with the first occurrence of the suffix text removed, as
      `key.replace(' OD', '')` does), then the bare "OD"/"OS" keys, which go to
      the section named "". */
  function RouteOf(key: string, value: Json): Route {
    if EndsWith(key, " OD") then ToSection(Assign(RemoveFirst(key, " OD"), OD, value))
    else if EndsWith(key, " OS") then ToSection(Assign(RemoveFirst(key, " OS"), OS, value))
    else if key == "OD" then ToSection(Assign("", OD, value))
    else if key == "OS" then ToSection(Assign("", OS, value))
    else ToOthers
  }

  /** The `odosKeys` filter. */
  predicate IsEyeKey(key: string) {
    EndsWith(key, " OD") || EndsWith(key, " OS") || key == "OD" || key == "OS"
  }

  /** The keys the `odosKeys` filter selects are exactly the keys the loop sends to `sections`. */
  lemma RouteOfEyeKey(key: string, value: Json)
    ensures RouteOf(key, value).ToSection? <==> IsEyeKey(key)
  {
  }

  function IndirectAssigns(entries: seq<(string, Json)>): seq<Assign>
    decreases |entries|
  {
    if entries == [] then []
    else
      var e := entries[|entries| - 1];
      var prev := IndirectAssigns(entries[..|entries| - 1]);
      match RouteOf(e.0, e.1)
      case ToSection(a) => prev + [a]
      case ToOthers => prev
  }

  function OtherEntries(entries: seq<(string, Json)>): seq<(string, Json)>
    decreases |entries|
  {
    if entries == [] then []
    else
      var e := entries[|entries| - 1];
      var prev := OtherEntries(entries[..|entries| - 1]);
      if RouteOf(e.0, e.1).ToOthers? then prev + [e] else prev
  }

  /** The `sections` and `otherProps` of the posterior-segment shape (MedicalRecordView.tsx:161-192). */
  method GroupIndirect(entries: seq<(string, Json)>, inherited: set<string>)
    returns (s: Sections, others: seq<(string, Json)>)
    ensures s == Grouped(IndirectAssigns(entries), inherited)
    ensures others == OtherEntries(entries)
  {
    s := Sections([], map[], map[]);
    others := [];
    var i := 0;
    while i < |entries|
      invariant 0 <= i <= |entries|
      invariant s == Grouped(IndirectAssigns(entries[..i]), inherited)
      invariant others == OtherEntries(entries[..i])
    {
      var key := entries[i].0;
      var value := entries[i].1;
      assert entries[..i + 1][..i] == entries[..i];
      match RouteOf(key, value) {
        case ToSection(a) =>
          s := Place(s, a, inherited, IndirectAssigns(entries[..i]));
        case ToOthers =>
          others := others + [entries[i]];
      }
      i := i + 1;
    }
    assert entries[..i] == entries;
  }

  /** The number of entries the `odosKeys` filter selects. */
  function EyeKeyCount(entries: seq<(string, Json)>): nat {
    if entries == [] then 0
    else (if IsEyeKey(entries[0].0) then 1 else 0) + EyeKeyCount(entries[1..])
  }

  lemma {:induction false} EyeKeyCountAppend(entries: seq<(string, Json)>, e: (string, Json))
    ensures EyeKeyCount(entries + [e]) == EyeKeyCount(entries) + (if IsEyeKey(e.0) then 1 else 0)
    decreases |entries|
  {
    if entries != [] {
      assert (entries + [e])[1..] == entries[1..] + [e];
      EyeKeyCountAppend(entries[1..], e);
    }
  }

  /** An entry the posterior-segment loop keeps in `otherProps`. */
  predicate NotEyeEntry(e: (string, Json)) {
    !IsEyeKey(e.0)
  }

  /** Every entry of a posterior-segment object goes to exactly one place: one
      section assignment per eye key, and every other entry, and only those, to
      `otherProps`, which keeps them in the object's order. */
  lemma {:induction false} IndirectPartition(entries: seq<(string, Json)>)
    ensures OtherEntries(entries) == Filter(entries, NotEyeEntry)
    ensures |IndirectAssigns(entries)| == EyeKeyCount(entries)
    ensures |IndirectAssigns(entries)| + |OtherEntries(entries)| == |entries|
    ensures forall k :: 0 <= k < |OtherEntries(entries)| ==> !IsEyeKey(OtherEntries(entries)[k].0)
    ensures forall e :: e in OtherEntries(entries) ==> e in entries
    ensures forall k :: 0 <= k < |entries| && !IsEyeKey(entries[k].0) ==> entries[k] in OtherEntries(entries)
    decreases |entries|
  {
    if entries != [] {
      var n := |entries| - 1;
      var e := entries[n];
      var init := entries[..n];
      assert entries == init + [e];
      IndirectPartition(init);
      RouteOfEyeKey(e.0, e.1);
      EyeKeyCountAppend(init, e);
      FilterAppend(init, [e], NotEyeEntry);
      forall k | 0 <= k < |entries| && !IsEyeKey(entries[k].0)
        ensures entries[k] in OtherEntries(entries)
      {
        if k < n {
          assert entries[k] == init[k];
        }
      }
    }
  }

  // ---------------------------------------------------------------------------
  // The rendered layout
  // ---------------------------------------------------------------------------

  /** What a table cell shows: the value when it is truthy, otherwise "N/A" (None). */
  function Cell(v: Json): Option<Json> {
    if Truthy(v) then Some(v) else None
  }

  datatype Row = Row(title: string, od: Option<Json>, os: Option<Json>)

  /** The section title; the posterior-segment table calls the "" section "General". */
  function Title(name: string, general: bool): string {
    if general && name == "" then "General" else name
  }

  lemma OrderedKeysAreKeys(keys: seq<string>, i: nat)
    requires i < |JsKeyOrder(keys)|
    ensures JsKeyOrder(keys)[i] in keys
  {
    JsKeyOrderProperties(keys);
    var order := JsKeyOrder(keys);
    assert order[i] in multiset(order);
  }

  /** `Object.entries(sections).map(...)`: one row per section, in the dictionary's enumeration order. */
  function Rows(s: Sections, general: bool): seq<Row>
    requires forall n :: n in s.keys ==> n in s.od && n in s.os
  {
    var order := JsKeyOrder(s.keys);
    seq(|order|, i requires 0 <= i < |order| =>
      OrderedKeysAreKeys(s.keys, i);
      Row(Title(order[i], general), Cell(s.od[order[i]]), Cell(s.os[order[i]])))
  }

  datatype View =
    | NotAvailable                                                // the italic "N/A"
    | Text(text: string)                                          // a highlighted string
    | List(items: seq<Json>)                                      // an ordered list, one item each
    | Table(others: seq<(string, Json)>, rows: seq<Row>, othersFirst: bool)
    | Fields(entries: seq<(string, Json)>)                        // "Label: value" lines
    | Plain(text: string)                                         // `String(data)`
    | Throws                                                      // a TypeError escapes the renderer

  predicate HasOwn(entries: seq<(string, Json)>, key: string) {
    key in Keys(entries)
  }

  /** The eye-key test of the `odosKeys` filter over all own keys. */
  predicate HasEyeKey(entries: seq<(string, Json)>) {
    exists k :: 0 <= k < |entries| && IsEyeKey(entries[k].0)
  }

  /** The filter of the anterior-segment `otherProps`: every entry but "OD" and "OS". */
  predicate NotSideEntry(e: (string, Json)) {
    e.0 != "OD" && e.0 != "OS"
  }

  /** The layout NoteRenderer chooses for one value: each kind of value gets
      its own kind of layout. Arrays are listed item by item, objects become a
      table or a field list, numbers and booleans are printed, and a string is
      shown as it is unless it means "not available". An object with an own
      "hasOwnProperty" key (a JSON value, so never a function) makes the call
      `data.hasOwnProperty('OD')` throw. */
  function ViewOf(data: Json, inherited: set<string>): (v: View)
    ensures v.List? <==> data.Arr?
    ensures v.List? ==> v.items == data.items
    ensures v.Table? || v.Fields? || v.Throws? <==> data.Obj?
    ensures v.Throws? <==> data.Obj? && HasOwn(data.entries, "hasOwnProperty")
    ensures v.Fields? ==> v.entries == data.entries
    ensures v.Plain? <==> data.Num? || data.Bool?
    ensures v.Text? ==> data == Str(v.text) && v.text != "" && v.text != "None"
  {
    match data
    case Null => NotAvailable
    case Str(s) => if s == "None" || s == "" then NotAvailable else Text(s)
    case Arr(items) => List(items)
    case Obj(entries) =>
      if HasOwn(entries, "hasOwnProperty") then Throws
      else if HasOwn(entries, "OD") && HasOwn(entries, "OS") then
        var g := Grouped(DirectAssigns(entries), inherited);
        Table(Filter(entries, NotSideEntry), Rows(g, false), false)
      else if HasEyeKey(entries) then
        var g := Grouped(IndirectAssigns(entries), inherited);
        Table(OtherEntries(entries), Rows(g, true), true)
      else Fields(entries)
    case Num(_) => Plain(JsToString(data))
    case Bool(_) => Plain(JsToString(data))
  }

  /** NoteRenderer's choice of layout, with the two grouping loops run for an eye-exam object. */
  method Render(data: Json, inherited: set<string>) returns (v: View)
    ensures v == ViewOf(data, inherited)
  {
    match data
    case Null => v := NotAvailable;
    case Str(s) => v := if s == "None" || s == "" then NotAvailable else Text(s);
    case Arr(items) => v := List(items);
    case Obj(entries) => v := RenderObject(entries, inherited);
    case Num(_) => v := Plain(JsToString(data));
    case Bool(_) => v := Plain(JsToString(data));
  }

  /** The object branch of NoteRenderer, with the grouping loop its shape calls for. */
  method RenderObject(entries: seq<(string, Json)>, inherited: set<string>) returns (v: View)
    ensures v == ViewOf(Obj(entries), inherited)
  {
    if HasOwn(entries, "hasOwnProperty") {
      v := Throws;
    } else if HasOwn(entries, "OD") && HasOwn(entries, "OS") {
      var g := GroupDirect(entries, inherited);
      v := Table(Filter(entries, NotSideEntry), Rows(g, false), false);
    } else if HasEyeKey(entries) {
      var g, others := GroupIndirect(entries, inherited);
      v := Table(others, Rows(g, true), true);
    } else {
      v := Fields(entries);
    }
  }

  // ---------------------------------------------------------------------------
  // Properties of the layout
  // ---------------------------------------------------------------------------

  /** "N/A" is shown exactly for null, "None" and the empty string. */
  lemma NotAvailableExactly(data: Json, inherited: set<string>)
    ensures ViewOf(data, inherited).NotAvailable? <==> (data.Null? || data == Str("None") || data == Str(""))
  {
  }

  /** Unless an own "hasOwnProperty" key makes the renderer throw, the
      anterior-segment table is chosen exactly for objects with own "OD" and
      "OS" properties, the posterior-segment table for the other objects with
      an eye key, and the plain field list for the remaining objects. */
  lemma ObjectLayouts(entries: seq<(string, Json)>, inherited: set<string>)
    ensures var v := ViewOf(Obj(entries), inherited);
      var ok := !HasOwn(entries, "hasOwnProperty");
      && (v.Throws? <==> !ok)
      && (v.Table? && !v.othersFirst <==> ok && HasOwn(entries, "OD") && HasOwn(entries, "OS"))
      && (v.Table? && v.othersFirst <==>
            ok && !(HasOwn(entries, "OD") && HasOwn(entries, "OS")) && HasEyeKey(entries))
      && (v.Fields? <==> ok && !(HasOwn(entries, "OD") && HasOwn(entries, "OS")) && !HasEyeKey(entries))
  {
  }

  /** The anterior-segment table lists, besides its rows, exactly the entries
      other than "OD" and "OS", in the object's order. */
  lemma AnteriorOthers(entries: seq<(string, Json)>, inherited: set<string>)
    requires !HasOwn(entries, "hasOwnProperty") && HasOwn(entries, "OD") && HasOwn(entries, "OS")
    ensures var v := ViewOf(Obj(entries), inherited);
      v.Table? && v.others == Filter(entries, NotSideEntry)
  {
  }

  /** The posterior-segment table lists, besides its rows, exactly the entries
      without an eye key, in the object's order. */
  lemma PosteriorOthers(entries: seq<(string, Json)>, inherited: set<string>)
    requires !HasOwn(entries, "hasOwnProperty") && HasEyeKey(entries)
    requires !(HasOwn(entries, "OD") && HasOwn(entries, "OS"))
    ensures var v := ViewOf(Obj(entries), inherited);
      v.Table? && v.others == Filter(entries, NotEyeEntry)
  {
    IndirectPartition(entries);
  }

  /** The table has one row per section, and every section has a row whose
      cells show the last values assigned to it. */
  lemma RowsMatchSections(xs: seq<Assign>, inherited: set<string>, general: bool)
    ensures var g := Grouped(xs, inherited);
      var rows := Rows(g, general);
      && |rows| == |g.keys|
      && forall n :: n in g.keys ==> exists i :: (0 <= i < |rows| &&
           rows[i] == Row(Title(n, general), Cell(LastValue(xs, n, OD)), Cell(LastValue(xs, n, OS))))
  {
    var g := Grouped(xs, inherited);
    var rows := Rows(g, general);
    JsKeyOrderProperties(g.keys);
    forall n | n in g.keys ensures exists i :: (0 <= i < |rows| &&
      rows[i] == Row(Title(n, general), Cell(LastValue(xs, n, OD)), Cell(LastValue(xs, n, OS))))
    {
      RowOfSection(g, general, n);
    }
  }

  /** Every section of a dictionary has a row showing its two cells. */
  lemma RowOfSection(s: Sections, general: bool, n: string)
    requires forall m :: m in s.keys ==> m in s.od && m in s.os
    requires n in s.keys
    ensures exists i :: 0 <= i < |Rows(s, general)| && Rows(s, general)[i] == Row(Title(n, general), Cell(s.od[n]), Cell(s.os[n]))
  {
    var order := JsKeyOrder(s.keys);
    JsKeyOrderProperties(s.keys);
    assert n in multiset(s.keys);
    assert n in multiset(order);
    var i :| 0 <= i < |order| && order[i] == n;
    assert Rows(s, general)[i] == Row(Title(n, general), Cell(s.od[n]), Cell(s.os[n]));
  }

  /** When no section name is an array index, the rows come in the order the
      sections were first assigned. */
  lemma RowsInAssignmentOrder(xs: seq<Assign>, inherited: set<string>, general: bool)
    requires forall n :: n in Created(xs, inherited) ==> !IsIndexKey(n)
    ensures var g := Grouped(xs, inherited);
      var rows := Rows(g, general);
      |rows| == |g.keys| && forall i :: 0 <= i < |rows| ==> rows[i].title == Title(g.keys[i], general)
  {
    var g := Grouped(xs, inherited);
    JsKeyOrderWithoutIndexKeys(g.keys);
  }

  /** As written: an assignment to a section named after an Object.prototype
      member shows up nowhere, neither as a row nor among the other fields. */
  lemma InheritedNamesHaveNoRow(xs: seq<Assign>, n: string)
    requires n in ObjectPrototypeNames
    ensures n !in Grouped(xs, ObjectPrototypeNames).keys
  {
    CreatedMembers(xs, ObjectPrototypeNames, n);
  }

  /** A key "name OD" whose name has no space goes to the section `name`. */
  lemma SuffixRoute(name: string, value: Json)
    requires forall k :: 0 <= k < |name| ==> name[k] != ' '
    ensures RouteOf(name + " OD", value) == ToSection(Assign(name, OD, value))
  {
    var key := name + " OD";
    forall j | 0 <= j < |name| ensures !OccursAt(key, " OD", j) {
      assert key[j..j + 3][0] == key[j] == name[j];
    }
    assert key[|name|..|name| + 3] == " OD";
    assert OccursAt(key, " OD", |name|);
    var i := IndexOf(key, " OD", 0);
    assert i == |name|;
    assert key[..|name|] == name && key[|name| + 3..] == [];
    assert EndsWith(key, " OD");
  }

  lemma ConstructorKeyRoutes()
    ensures RouteOf("constructor OD", Str("20/20")) == ToSection(Assign("constructor", OD, Str("20/20")))
  {
    var name := "constructor";
    forall k | 0 <= k < |name| ensures name[k] != ' ' {
    }
    assert name + " OD" == "constructor OD";
    SuffixRoute(name, Str("20/20"));
  }

  lemma ConstructorAssigns()
    ensures IndirectAssigns([("constructor OD", Str("20/20"))]) == [Assign("constructor", OD, Str("20/20"))]
    ensures OtherEntries([("constructor OD", Str("20/20"))]) == []
  {
    ConstructorKeyRoutes();
    var es := [("constructor OD", Str("20/20"))];
    assert es[..0] == [];
  }

  /** {"constructor OD": "20/20"} has no own "OD" property but an eye key, so
      it takes the posterior-segment layout. */
  lemma ConstructorNoteLayout(inherited: set<string>)
    ensures var es := [("constructor OD", Str("20/20"))];
      ViewOf(Obj(es), inherited)
        == Table(OtherEntries(es), Rows(Grouped(IndirectAssigns(es), inherited), true), true)
  {
    var es := [("constructor OD", Str("20/20"))];
    ConstructorKeyRoutes();
    RouteOfEyeKey(es[0].0, es[0].1);
    assert HasEyeKey(es);
    assert Keys(es) == ["constructor OD"];
    assert !HasOwn(es, "OD") && !HasOwn(es, "hasOwnProperty");
    PosteriorLayout(es, inherited);
  }

  /** An object without an own "OD" but with an eye key is laid out from the posterior-segment loop. */
  lemma PosteriorLayout(entries: seq<(string, Json)>, inherited: set<string>)
    requires !HasOwn(entries, "hasOwnProperty") && !HasOwn(entries, "OD") && HasEyeKey(entries)
    ensures ViewOf(Obj(entries), inherited)
      == Table(OtherEntries(entries), Rows(Grouped(IndirectAssigns(entries), inherited), true), true)
  {
  }

  /** The posterior-segment note {"constructor OD": "20/20"} as written renders
      a table with no rows and no other fields: the value is lost. */
  lemma ConstructorRowDropped()
    ensures ViewOf(Obj([("constructor OD", Str("20/20"))]), ObjectPrototypeNames) == Table([], [], true)
  {
    ConstructorNoteLayout(ObjectPrototypeNames);
    ConstructorAssigns();
    var xs := [Assign("constructor", OD, Str("20/20"))];
    assert xs[..0] == [];
    assert Created(xs, ObjectPrototypeNames) == [];
    NoIndexFilters([]);
  }

  /** Corrected (no inherited names): every assigned section has its own row. */
  lemma EveryAssignedSectionHasRow(xs: seq<Assign>, i: nat)
    requires i < |xs|
    ensures xs[i].name in Grouped(xs, {}).keys
  {
    CreatedMembers(xs, {}, xs[i].name);
  }

  /** Corrected, on the same input: one row "constructor" with the OD value and an empty OS cell. */
  lemma ConstructorRowKept()
    ensures ViewOf(Obj([("constructor OD", Str("20/20"))]), {})
      == Table([], [Row("constructor", Some(Str("20/20")), None)], true)
  {
    ConstructorNoteLayout({});
    ConstructorAssigns();
    ConstructorRows();
  }

  lemma ConstructorRows()
    ensures Rows(Grouped([Assign("constructor", OD, Str("20/20"))], {}), true)
      == [Row("constructor", Some(Str("20/20")), None)]
  {
    ConstructorSection();
    var g := Grouped([Assign("constructor", OD, Str("20/20"))], {});
    assert !IsIndexKey(g.keys[0]) by { assert !IsDigit("constructor"[0]); }
    RowsOfOneSection(g, true);
  }

  /** A dictionary with one section that is not an array index has that one row. */
  lemma RowsOfOneSection(s: Sections, general: bool)
    requires forall n :: n in s.keys ==> n in s.od && n in s.os
    requires |s.keys| == 1 && !IsIndexKey(s.keys[0])
    ensures Rows(s, general) == [Row(Title(s.keys[0], general), Cell(s.od[s.keys[0]]), Cell(s.os[s.keys[0]]))]
  {
    JsKeyOrderWithoutIndexKeys(s.keys);
    var rows := Rows(s, general);
    assert |rows| == 1;
  }

  lemma ConstructorSection()
    ensures var g := Grouped([Assign("constructor", OD, Str("20/20"))], {});
      && g.keys == ["constructor"]
      && g.od["constructor"] == Str("20/20") && g.os["constructor"] == Str("")
  {
    var xs := [Assign("constructor", OD, Str("20/20"))];
    assert xs[..0] == [];
  }

  /** An array under "OD" contributes one section per item, named by its index. */
  lemma ArraySideNamesAreIndices(items: seq<Json>, side: Side, k: nat)
    requires k < |items|
    ensures var xs := SideOf(Arr(items), side);
      |xs| == |items| && xs[k] == Assign(NatToString(k), side, items[k])
  {
  }
}
