/** `String.prototype.split` with a regular expression made of one capture group
    around a fixed-width pattern: the result alternates the text between matches
    and the matches themselves, `[chunk, match, chunk, ..., match, chunk]`.
    Matches are found leftmost first and never overlap. Two patterns occur in
    the dashboard: the dictation marker `(Speaker [A-Z]:)` and a search term,
    taken literally and matched ignoring ASCII case (the `i` flag). */
module LiteralSplit {
  import opened Strings

  datatype Pattern =
    | SpeakerMarker          // /(Speaker [A-Z]:)/
    | Literal(text: string)  // new RegExp(`(${text})`, 'gi') for a text without metacharacters

  function Width(p: Pattern): nat {
    match p
    case SpeakerMarker => 10
    case Literal(t) => |t|
  }

  const SpeakerPrefix: string := "Speaker "

  /** Whether the whole of `w` is one match of `p`. */
  predicate Matches(p: Pattern, w: string) {
    |w| == Width(p) &&
    match p
    case SpeakerMarker => w[..8] == SpeakerPrefix && IsUpper(w[8]) && w[9] == ':'
    case Literal(t) => EqualsIgnoreCase(w, t)
  }

  predicate MatchAt(p: Pattern, s: string, i: int) {
    0 <= i && i + Width(p) <= |s| && Matches(p, s[i..i + Width(p)])
  }

  predicate NoMatchIn(p: Pattern, s: string) {
    forall i :: 0 <= i <= |s| ==> !MatchAt(p, s, i)
  }

  /** The leftmost match at or after `from`, or `|s|` when there is none. */
  function FindMatch(p: Pattern, s: string, from: nat): (r: nat)
    requires from <= |s|
    decreases |s| - from
    ensures from <= r <= |s|
    ensures r < |s| ==> MatchAt(p, s, r)
    ensures forall k :: from <= k < r ==> !MatchAt(p, s, k)
  {
    if from + Width(p) > |s| then |s|
    else if MatchAt(p, s, from) then from
    else FindMatch(p, s, from + 1)
  }

  /** A prefix of `s` ending at the leftmost match holds no match of its own. */
  lemma PrefixBeforeFirstMatch(p: Pattern, s: string, i: nat)
    requires Width(p) > 0 && i <= |s|
    requires forall k :: 0 <= k < i ==> !MatchAt(p, s, k)
    ensures NoMatchIn(p, s[..i])
  {
    forall k | 0 <= k <= i && MatchAt(p, s[..i], k) ensures false {
      assert s[..i][k..k + Width(p)] == s[k..k + Width(p)];
      assert MatchAt(p, s, k);
    }
  }

  /** Where `parts[k]` starts in the text the parts were cut from. */
  function Offset(parts: seq<string>, k: nat): nat
    requires k <= |parts|
  {
    |Flatten(parts[..k])|
  }

  /** No match of `p` in `s` starts inside a text part (an even-numbered one):
      each match is the leftmost one after the previous match. */
  predicate LeftmostMatches(p: Pattern, s: string, parts: seq<string>) {
    forall k :: 0 <= k < |parts| && k % 2 == 0 ==>
      forall j :: Offset(parts, k) <= j < Offset(parts, k) + |parts[k]| ==> !MatchAt(p, s, j)
  }

  /** The parts `s.split(regex)` returns. */
  function Split(p: Pattern, s: string): (parts: seq<string>)
    requires Width(p) > 0
    decreases |s|
    ensures |parts| % 2 == 1
    ensures Flatten(parts) == s
    ensures forall k :: 0 <= k < |parts| && k % 2 == 1 ==> Matches(p, parts[k])
    ensures forall k :: 0 <= k < |parts| && k % 2 == 0 ==> NoMatchIn(p, parts[k])
  {
    var i := FindMatch(p, s, 0);
    if i == |s| then
      PrefixBeforeFirstMatch(p, s, |s|);
      assert s[..|s|] == s;
      assert Flatten([s]) == s + Flatten([]);
      [s]
    else
      var rest := Split(p, s[i + Width(p)..]);
      SplitStep(p, s, i, rest);
      [s[..i], s[i..i + Width(p)]] + rest
  }

  /** One match in front of an already split remainder. */
  lemma SplitStep(p: Pattern, s: string, i: nat, rest: seq<string>)
    requires Width(p) > 0 && i < |s| && MatchAt(p, s, i)
    requires forall k :: 0 <= k < i ==> !MatchAt(p, s, k)
    requires |rest| % 2 == 1 && Flatten(rest) == s[i + Width(p)..]
    requires forall k :: 0 <= k < |rest| && k % 2 == 1 ==> Matches(p, rest[k])
    requires forall k :: 0 <= k < |rest| && k % 2 == 0 ==> NoMatchIn(p, rest[k])
    ensures var parts := [s[..i], s[i..i + Width(p)]] + rest;
      && |parts| % 2 == 1 && Flatten(parts) == s
      && (forall k :: 0 <= k < |parts| && k % 2 == 1 ==> Matches(p, parts[k]))
      && (forall k :: 0 <= k < |parts| && k % 2 == 0 ==> NoMatchIn(p, parts[k]))
  {
    var w := Width(p);
    PrefixBeforeFirstMatch(p, s, i);
    var parts := [s[..i], s[i..i + w]] + rest;
    FlattenTwoInFront(s[..i], s[i..i + w], rest);
    assert s == s[..i] + s[i..i + w] + s[i + w..];
    forall k | 2 <= k < |parts|
      ensures (k % 2 == 1 ==> Matches(p, parts[k])) && (k % 2 == 0 ==> NoMatchIn(p, parts[k]))
    {
      assert parts[k] == rest[k - 2];
    }
  }

  /** Every match `Split` reports is the leftmost one after the previous
      match: no match of the whole text starts inside a text part, in
      particular none before the first match. */
  lemma {:induction false} SplitIsLeftmost(p: Pattern, s: string)
    requires Width(p) > 0
    ensures LeftmostMatches(p, s, Split(p, s))
    decreases |s|
  {
    var i := FindMatch(p, s, 0);
    if i == |s| {
      SplitWithoutFirstMatch(p, s);
      assert Offset([s], 0) == 0 by { assert [s][..0] == []; }
    } else {
      var t := s[i + Width(p)..];
      SplitIsLeftmost(p, t);
      SplitIsLeftmostStep(p, s, i, t, Split(p, t));
    }
  }

  lemma SplitIsLeftmostStep(p: Pattern, s: string, i: nat, t: string, rest: seq<string>)
    requires Width(p) > 0 && FindMatch(p, s, 0) == i < |s|
    requires t == s[i + Width(p)..] && rest == Split(p, t)
    requires LeftmostMatches(p, t, rest)
    ensures LeftmostMatches(p, s, Split(p, s))
  {
    LeftmostStep(p, s, i, rest);
    SplitAtFirstMatch(p, s);
  }

  lemma LeftmostStep(p: Pattern, s: string, i: nat, rest: seq<string>)
    requires Width(p) > 0 && i + Width(p) <= |s|
    requires forall k :: 0 <= k < i ==> !MatchAt(p, s, k)
    requires LeftmostMatches(p, s[i + Width(p)..], rest)
    ensures LeftmostMatches(p, s, [s[..i], s[i..i + Width(p)]] + rest)
  {
    var w := Width(p);
    var parts := [s[..i], s[i..i + w]] + rest;
    assert Offset(parts, 0) == 0 by { assert parts[..0] == []; }
    forall k | 2 <= k < |parts| && k % 2 == 0
      ensures forall j :: Offset(parts, k) <= j < Offset(parts, k) + |parts[k]| ==> !MatchAt(p, s, j)
    {
      LeftmostChunkStep(p, s, i + w, s[..i], s[i..i + w], rest, k);
    }
  }

  /** A text part of the remainder, seen from the whole text. */
  lemma LeftmostChunkStep(p: Pattern, s: string, off: nat, a: string, b: string, rest: seq<string>, k: nat)
    requires off == |a| + |b| <= |s| && 2 <= k < |rest| + 2 && k % 2 == 0
    requires LeftmostMatches(p, s[off..], rest)
    ensures var parts := [a, b] + rest;
      forall j :: Offset(parts, k) <= j < Offset(parts, k) + |parts[k]| ==> !MatchAt(p, s, j)
  {
    var parts := [a, b] + rest;
    OffsetTwoInFront(a, b, rest, k);
    assert parts[k] == rest[k - 2];
    forall j | Offset(parts, k) <= j < Offset(parts, k) + |parts[k]|
      ensures !MatchAt(p, s, j)
    {
      assert !MatchAt(p, s[off..], j - off);
      ShiftedMatch(p, s, off, j);
    }
  }

  /** A match in a suffix is a match in the whole text, shifted. */
  lemma ShiftedMatch(p: Pattern, s: string, off: nat, j: int)
    requires off <= j && off <= |s|
    ensures MatchAt(p, s, j) <==> MatchAt(p, s[off..], j - off)
  {
    if j + Width(p) <= |s| {
      assert s[j..j + Width(p)] == s[off..][j - off..j - off + Width(p)];
    }
  }

  /** `Split` is the only way to cut `s` into alternating text parts and
      matches with every match leftmost: its contract determines its result. */
  lemma {:induction false} SplitIsUnique(p: Pattern, s: string, parts: seq<string>)
    requires Width(p) > 0
    requires |parts| % 2 == 1 && Flatten(parts) == s
    requires forall k :: 0 <= k < |parts| && k % 2 == 1 ==> Matches(p, parts[k])
    requires LeftmostMatches(p, s, parts)
    ensures parts == Split(p, s)
    decreases |s|, 1
  {
    FirstMatchOfSplitting(p, s, parts);
    if |parts| == 1 {
      assert Flatten(parts) == parts[0] + Flatten(parts[1..]);
      assert parts[1..] == [];
      assert s == parts[0];
      assert parts == [s];
      SplitWithoutFirstMatch(p, s);
    } else {
      UniqueAfterFirstMatch(p, s, parts);
    }
  }

  lemma {:induction false} UniqueAfterFirstMatch(p: Pattern, s: string, parts: seq<string>)
    requires Width(p) > 0 && |parts| > 1
    requires |parts| % 2 == 1 && Flatten(parts) == s
    requires forall k :: 0 <= k < |parts| && k % 2 == 1 ==> Matches(p, parts[k])
    requires LeftmostMatches(p, s, parts)
    requires FindMatch(p, s, 0) == |parts[0]| < |s| && s[|parts[0]|..|parts[0]| + Width(p)] == parts[1]
    ensures parts == Split(p, s)
    decreases |s|, 0
  {
    var w := Width(p);
    var a, b, rest := parts[0], parts[1], parts[2..];
    assert |b| == w;
    assert parts == [a, b] + rest;
    FlattenTwoInFront(a, b, rest);
    var t := s[|a| + w..];
    assert s == a + b + Flatten(rest);
    assert t == Flatten(rest);
    forall k | 0 <= k < |rest| && k % 2 == 1 ensures Matches(p, rest[k]) {
      assert rest[k] == parts[k + 2];
    }
    LeftmostOfRest(p, s, a, b, rest);
    SplitIsUnique(p, t, rest);
    SplitAtFirstMatch(p, s);
    assert s[..|a|] == a;
  }

  /** Where the first match of a leftmost splitting is. */
  lemma FirstMatchOfSplitting(p: Pattern, s: string, parts: seq<string>)
    requires Width(p) > 0
    requires |parts| % 2 == 1 && Flatten(parts) == s
    requires |parts| > 1 ==> Matches(p, parts[1])
    requires LeftmostMatches(p, s, parts)
    ensures |parts| == 1 ==> FindMatch(p, s, 0) == |s|
    ensures |parts| > 1 ==> FindMatch(p, s, 0) == |parts[0]| < |s| && s[|parts[0]|..|parts[0]| + Width(p)] == parts[1]
  {
    LeftmostFirst(p, s, parts);
    var i := FindMatch(p, s, 0);
    if |parts| == 1 {
      assert Flatten(parts) == parts[0] + Flatten(parts[1..]);
      assert parts[1..] == [];
      assert s == parts[0];
    } else {
      var a, b := parts[0], parts[1];
      assert parts == [a, b] + parts[2..];
      FlattenTwoInFront(a, b, parts[2..]);
      assert s[|a|..|a| + Width(p)] == b;
      assert MatchAt(p, s, |a|);
    }
  }

  /** The first text part's positions in a leftmost splitting hold no match. */
  lemma LeftmostFirst(p: Pattern, s: string, parts: seq<string>)
    requires |parts| > 0 && LeftmostMatches(p, s, parts)
    ensures forall j :: 0 <= j < |parts[0]| ==> !MatchAt(p, s, j)
  {
    assert Offset(parts, 0) == 0 by { assert parts[..0] == []; }
  }

  /** Splitting at the leftmost match: the text before it, the match, and the
      split of the rest. */
  lemma SplitAtFirstMatch(p: Pattern, s: string)
    requires Width(p) > 0 && FindMatch(p, s, 0) < |s|
    ensures var i := FindMatch(p, s, 0);
      Split(p, s) == [s[..i], s[i..i + Width(p)]] + Split(p, s[i + Width(p)..])
  {
  }

  /** Without a match, the whole text is the only part. */
  lemma SplitWithoutFirstMatch(p: Pattern, s: string)
    requires Width(p) > 0 && FindMatch(p, s, 0) == |s|
    ensures Split(p, s) == [s]
  {
  }

  /** The text parts of the remainder, seen from the remainder. */
  lemma LeftmostOfRest(p: Pattern, s: string, a: string, b: string, rest: seq<string>)
    requires |a| + |b| <= |s|
    requires LeftmostMatches(p, s, [a, b] + rest)
    ensures LeftmostMatches(p, s[|a| + |b|..], rest)
  {
    var parts := [a, b] + rest;
    var off := |a| + |b|;
    forall k | 0 <= k < |rest| && k % 2 == 0
      ensures forall j :: Offset(rest, k) <= j < Offset(rest, k) + |rest[k]| ==> !MatchAt(p, s[off..], j)
    {
      OffsetTwoInFront(a, b, rest, k + 2);
      assert parts[k + 2] == rest[k];
      forall j | Offset(rest, k) <= j < Offset(rest, k) + |rest[k]|
        ensures !MatchAt(p, s[off..], j)
      {
        assert !MatchAt(p, s, j + off);
        ShiftedMatch(p, s, off, j + off);
      }
    }
  }

  lemma OffsetTwoInFront(a: string, b: string, rest: seq<string>, k: nat)
    requires 2 <= k <= |rest| + 2
    ensures Offset([a, b] + rest, k) == |a| + |b| + Offset(rest, k - 2)
  {
    assert ([a, b] + rest)[..k] == [a, b] + rest[..k - 2];
    FlattenTwoInFront(a, b, rest[..k - 2]);
  }

  lemma FlattenTwoInFront(a: string, b: string, rest: seq<string>)
    ensures Flatten([a, b] + rest) == a + (b + Flatten(rest))
  {
    var parts := [a, b] + rest;
    assert parts[1..] == [b] + rest;
    assert parts[1..][1..] == rest;
  }

  /** The number of matches `Split` found. */
  function MatchCount(p: Pattern, s: string): nat
    requires Width(p) > 0
  {
    |Split(p, s)| / 2
  }

  lemma SplitWithoutMatch(p: Pattern, s: string)
    requires Width(p) > 0 && NoMatchIn(p, s)
    ensures Split(p, s) == [s]
  {
  }

  /** A text with a match splits into more than one part. */
  lemma SplitWithMatch(p: Pattern, s: string, i: int)
    requires Width(p) > 0 && MatchAt(p, s, i)
    ensures |Split(p, s)| >= 3
  {
    var f := FindMatch(p, s, 0);
    assert f <= i;
  }
}
