/** The values a parsed SOAP note can hold, and the two pieces of JavaScript
    object semantics the note code depends on: the string a value turns into
    inside a template literal, and the order in which an object enumerates its
    own keys. */
module Json {
  import opened Strings

  /** A parsed note value. `entries` of an object are listed in the order
      `Object.entries` reports them. Numbers are integers here. */
  datatype Json =
    | Null
    | Str(s: string)
    | Num(n: int)
    | Bool(b: bool)
    | Arr(items: seq<Json>)
    | Obj(entries: seq<(string, Json)>)

  /** `typeof v === 'object'` (arrays and null are objects to JavaScript). */
  predicate IsObjectType(v: Json) {
    v.Null? || v.Arr? || v.Obj?
  }

  /** JavaScript truthiness of a value (the empty string and zero are falsy). */
  predicate Truthy(v: Json) {
    match v
    case Null => false
    case Str(s) => s != ""
    case Num(n) => n != 0
    case Bool(b) => b
    case Arr(_) => true
    case Obj(_) => true
  }

  /** The string `${v}` (equivalently `String(v)`) produces: arrays join their
      elements with ",", writing null elements as the empty string, and every
      plain object is "[object Object]". */
  function JsToString(v: Json): string
  {
    match v
    case Null => "null"
    case Str(s) => s
    case Num(n) => IntToString(n)
    case Bool(b) => if b then "true" else "false"
    case Arr(items) =>
      Join(seq(|items|, k requires 0 <= k < |items| =>
        if items[k].Null? then "" else JsToString(items[k])), ",")
    case Obj(_) => "[object Object]"
  }

  /** `Object.entries` of an array: its index keys "0", "1", ... with the items. */
  function ArrayEntries(items: seq<Json>): (r: seq<(string, Json)>)
    ensures |r| == |items|
    ensures forall k :: 0 <= k < |r| ==> r[k] == (NatToString(k), items[k])
  {
    seq(|items|, k requires 0 <= k < |items| => (NatToString(k), items[k]))
  }

  /** `Object.entries(v)` for a value whose `typeof` is 'object' and that is not null. */
  function EntriesOf(v: Json): seq<(string, Json)>
    requires v.Arr? || v.Obj?
  {
    if v.Arr? then ArrayEntries(v.items) else v.entries
  }

  /** `data[key]` for an own property (the first entry of that key). */
  function Lookup(entries: seq<(string, Json)>, key: string): Json {
    if entries == [] then Null
    else if entries[0].0 == key then entries[0].1
    else Lookup(entries[1..], key)
  }

  /** `v.key`: an own property of an object; anything else has no such
      property, which reads as undefined (here `Null`). */
  function Property(v: Json, key: string): Json {
    if v.Obj? then Lookup(v.entries, key) else Null
  }

  /** `v.length`: the length of an array or a string, an object's own
      "length" property, and undefined for everything else. */
  function Length(v: Json): Json {
    match v
    case Arr(items) => Num(|items|)
    case Str(s) => Num(|s|)
    case Obj(entries) => Lookup(entries, "length")
    case _ => Null
  }

  /** `v[k]`: an array item, a one-character string, an object's property
      named by the index, or undefined when there is none. */
  function Element(v: Json, k: nat): (r: Json)
    ensures v.Arr? && k < |v.items| ==> r == v.items[k]
    ensures v.Str? && k < |v.s| ==> r == Str([v.s[k]])
    ensures v.Obj? ==> r == Lookup(v.entries, NatToString(k))
    ensures (v.Null? || v.Num? || v.Bool?) ==> r == Null
  {
    match v
    case Arr(items) => if k < |items| then items[k] else Null
    case Str(s) => if k < |s| then Str([s[k]]) else Null
    case Obj(_) => Property(v, NatToString(k))
    case _ => Null
  }

  /** A string of decimal digits whose value is above zero. */
  predicate PositiveDigits(s: string) {
    s != "" && AllDigits(s) && ParseDigits(s) > 0
  }

  /** `v > 0` for a value of the note's kinds: null and false are 0, true is 1,
      a string is compared by its numeric value (only plain decimal digits are
      read here), an array through the string it joins to, and a plain object
      ("[object Object]") is NaN. */
  function GreaterThanZero(v: Json): (r: bool)
    ensures v.Num? ==> (r <==> v.n > 0)
    ensures v.Null? || v.Obj? || v == Bool(false) ==> !r
  {
    match v
    case Null => false
    case Bool(b) => b
    case Num(n) => n > 0
    case Str(s) => PositiveDigits(s)
    case Arr(_) => PositiveDigits(JsToString(v))
    case Obj(_) => false
  }

  /** A count compares with zero the same whether it is held as a number or as
      its decimal string. */
  lemma NumberAndDigitsCompareAlike(n: nat)
    ensures GreaterThanZero(Str(NatToString(n))) == GreaterThanZero(Num(n))
  {
    ParseNatToString(n);
  }

  function Keys(entries: seq<(string, Json)>): (r: seq<string>)
    ensures |r| == |entries| && forall k :: 0 <= k < |r| ==> r[k] == entries[k].0
  {
    seq(|entries|, k requires 0 <= k < |entries| => entries[k].0)
  }

  // ---------------------------------------------------------------------------
  // Own-key enumeration order of a plain object: keys that are array indices
  // ("0", "17", ... below 2^32 - 1, no leading zero) come first in ascending
  // numeric order, then every other key in the order it was first inserted.
  // ---------------------------------------------------------------------------

  const MaxArrayIndex: nat := 4294967294

  predicate IsIndexKey(k: string) {
    |k| >= 1 && AllDigits(k) && (|k| == 1 || k[0] != '0') && ParseDigits(k) <= MaxArrayIndex
  }

  predicate Distinct<T(==)>(s: seq<T>) {
    forall i, j :: 0 <= i < j < |s| ==> s[i] != s[j]
  }

  /** A sequence is free of repetitions exactly when no element occurs twice in its multiset. */
  lemma {:induction false} DistinctByCount<T>(s: seq<T>)
    ensures Distinct(s) <==> forall x :: multiset(s)[x] <= 1
  {
    if s != [] {
      var t := s[1..];
      assert s == [s[0]] + t;
      DistinctByCount(t);
      if Distinct(s) {
        assert s[0] !in t;
        assert Distinct(t) by {
          forall i, j | 0 <= i < j < |t| ensures t[i] != t[j] {
            assert t[i] == s[i + 1] && t[j] == s[j + 1];
          }
        }
      }
      if forall x :: multiset(s)[x] <= 1 {
        assert forall x :: multiset(t)[x] <= 1 by {
          forall x ensures multiset(t)[x] <= 1 {
            assert multiset(s)[x] == multiset([s[0]])[x] + multiset(t)[x];
          }
        }
        assert multiset(t)[s[0]] == 0 by {
          assert multiset(s)[s[0]] == 1 + multiset(t)[s[0]];
        }
        forall i, j | 0 <= i < j < |s| ensures s[i] != s[j] {
          if i == 0 {
            assert s[j] == t[j - 1];
            assert s[j] in multiset(t);
          } else {
            assert s[i] == t[i - 1] && s[j] == t[j - 1];
          }
        }
      }
    }
  }

  lemma SameMultisetDistinct<T>(a: seq<T>, b: seq<T>)
    requires multiset(a) == multiset(b) && Distinct(a)
    ensures Distinct(b)
  {
    DistinctByCount(a);
    DistinctByCount(b);
  }

  function FilterIndexKeys(keys: seq<string>, wantIndex: bool): (r: seq<string>)
    ensures forall k :: 0 <= k < |r| ==> IsIndexKey(r[k]) == wantIndex
  {
    if keys == [] then []
    else
      var rest := FilterIndexKeys(keys[1..], wantIndex);
      if IsIndexKey(keys[0]) == wantIndex then [keys[0]] + rest else rest
  }

  /** The two filters split the keys between them. */
  lemma {:induction false} FiltersPartition(keys: seq<string>)
    ensures multiset(FilterIndexKeys(keys, true)) + multiset(FilterIndexKeys(keys, false)) == multiset(keys)
  {
    if keys != [] {
      assert keys == [keys[0]] + keys[1..];
      FiltersPartition(keys[1..]);
    }
  }

  /** The numeric value of an index key (0 for any other key). */
  function KeyNumber(k: string): nat {
    if IsIndexKey(k) then ParseDigits(k) else 0
  }

  predicate SortedBy(key: string -> nat, ks: seq<string>) {
    forall i, j :: 0 <= i < j < |ks| ==> key(ks[i]) <= key(ks[j])
  }

  predicate SortedByNumber(ks: seq<string>) {
    SortedBy(KeyNumber, ks)
  }

  function InsertBy(key: string -> nat, k: string, sorted: seq<string>): (r: seq<string>)
    requires SortedBy(key, sorted)
    ensures SortedBy(key, r)
    ensures multiset(r) == multiset(sorted) + multiset{k}
  {
    if sorted == [] || key(k) <= key(sorted[0]) then [k] + sorted
    else
      var rest := InsertBy(key, k, sorted[1..]);
      InsertedAfterHead(key, k, sorted, rest);
      [sorted[0]] + rest
  }

  lemma InsertedAfterHead(key: string -> nat, k: string, sorted: seq<string>, rest: seq<string>)
    requires sorted != [] && key(sorted[0]) < key(k) && SortedBy(key, sorted)
    requires SortedBy(key, rest) && multiset(rest) == multiset(sorted[1..]) + multiset{k}
    ensures SortedBy(key, [sorted[0]] + rest)
    ensures multiset([sorted[0]] + rest) == multiset(sorted) + multiset{k}
  {
    assert sorted == [sorted[0]] + sorted[1..];
    var r := [sorted[0]] + rest;
    forall j | 0 <= j < |rest| ensures key(sorted[0]) <= key(rest[j]) {
      assert rest[j] in multiset(rest);
      if rest[j] != k {
        assert rest[j] in multiset(sorted[1..]);
        var m :| 0 <= m < |sorted[1..]| && sorted[1..][m] == rest[j];
        assert sorted[m + 1] == rest[j];
      }
    }
    forall i, j | 0 <= i < j < |r| ensures key(r[i]) <= key(r[j]) {
      if i > 0 {
        assert r[i] == rest[i - 1] && r[j] == rest[j - 1];
      } else {
        assert r[j] == rest[j - 1];
      }
    }
  }

  /** A stable insertion sort (what `Object.keys` does to the index keys). */
  function SortBy(key: string -> nat, ks: seq<string>): (r: seq<string>)
    ensures SortedBy(key, r) && multiset(r) == multiset(ks)
  {
    if ks == [] then []
    else
      assert ks == [ks[0]] + ks[1..];
      InsertBy(key, ks[0], SortBy(key, ks[1..]))
  }

  function SortIndexKeys(ks: seq<string>): (r: seq<string>)
    ensures SortedByNumber(r) && multiset(r) == multiset(ks)
  {
    SortBy(KeyNumber, ks)
  }

  /** The order in which `Object.keys` / `Object.entries` enumerate an object
      whose keys were inserted in the order `keys`. */
  function JsKeyOrder(keys: seq<string>): seq<string>
  {
    SortIndexKeys(FilterIndexKeys(keys, true)) + FilterIndexKeys(keys, false)
  }

  /** Enumeration lists every inserted key as often as it was inserted, with the
      index keys in ascending numeric order ahead of all other keys, which keep
      their insertion order; so distinct keys are enumerated once each. */
  lemma JsKeyOrderProperties(keys: seq<string>)
    ensures var r := JsKeyOrder(keys);
      && multiset(r) == multiset(keys) && |r| == |keys|
      && (Distinct(keys) ==> Distinct(r))
      && (forall i, j :: 0 <= i < j < |r| && IsIndexKey(r[j]) ==>
            IsIndexKey(r[i]) && KeyNumber(r[i]) <= KeyNumber(r[j]))
      && r[|r| - |FilterIndexKeys(keys, false)|..] == FilterIndexKeys(keys, false)
  {
    var a := FilterIndexKeys(keys, true);
    var b := FilterIndexKeys(keys, false);
    var sa := SortIndexKeys(a);
    var r := sa + b;
    FiltersPartition(keys);
    assert multiset(r) == multiset(keys);
    assert |r| == |multiset(r)| == |multiset(keys)| == |keys|;
    if Distinct(keys) {
      SameMultisetDistinct(keys, r);
    }
    forall i | 0 <= i < |sa| ensures IsIndexKey(sa[i]) {
      assert sa[i] in multiset(a);
    }
    forall i, j | 0 <= i < j < |r| && IsIndexKey(r[j])
      ensures IsIndexKey(r[i]) && KeyNumber(r[i]) <= KeyNumber(r[j])
    {
    }
  }

  /** Distinct index keys name distinct numbers, so among distinct keys the
      index keys are in strictly ascending order. */
  lemma JsKeyOrderStrict(keys: seq<string>)
    requires Distinct(keys)
    ensures var r := JsKeyOrder(keys);
      forall i, j :: 0 <= i < j < |r| && IsIndexKey(r[j]) ==> KeyNumber(r[i]) < KeyNumber(r[j])
  {
    JsKeyOrderProperties(keys);
    var r := JsKeyOrder(keys);
    forall i, j | 0 <= i < j < |r| && IsIndexKey(r[j]) ensures KeyNumber(r[i]) < KeyNumber(r[j]) {
      CanonicalIndexKeys(r[i], r[j]);
    }
  }

  /** Two different index keys name different numbers (no leading zeros). */
  lemma CanonicalIndexKeys(a: string, b: string)
    requires IsIndexKey(a) && IsIndexKey(b) && a != b
    ensures KeyNumber(a) != KeyNumber(b)
  {
    CanonicalDigits(a);
    CanonicalDigits(b);
  }

  lemma CanonicalDigits(a: string)
    requires IsIndexKey(a)
    ensures NatToString(KeyNumber(a)) == a
  {
    CanonicalDigitsFrom(a);
  }

  lemma {:induction false} CanonicalDigitsFrom(a: string)
    requires |a| >= 1 && AllDigits(a) && (|a| == 1 || a[0] != '0')
    ensures NatToString(ParseDigits(a)) == a
  {
    var n := ParseDigits(a);
    var init := a[..|a| - 1];
    var d := DigitValue(a[|a| - 1]);
    if |a| == 1 {
      assert init == [] && ParseDigits(init) == 0;
      assert n == d;
      assert [DigitChar(d)] == a;
    } else {
      assert init[0] == a[0];
      CanonicalDigitsFrom(init);
      PositiveWithoutLeadingZero(init);
      assert n / 10 == ParseDigits(init) && n % 10 == d;
      assert n >= 10;
      assert a == init + [a[|a| - 1]];
    }
  }

  lemma {:induction false} PositiveWithoutLeadingZero(a: string)
    requires |a| >= 1 && AllDigits(a) && a[0] != '0'
    ensures ParseDigits(a) >= 1
  {
    if |a| > 1 {
      var init := a[..|a| - 1];
      assert init[0] == a[0];
      PositiveWithoutLeadingZero(init);
    }
  }

  /** Without index keys, enumeration is plain insertion order. */
  lemma {:induction false} JsKeyOrderWithoutIndexKeys(keys: seq<string>)
    requires forall i :: 0 <= i < |keys| ==> !IsIndexKey(keys[i])
    ensures JsKeyOrder(keys) == keys
  {
    NoIndexFilters(keys);
  }

  lemma {:induction false} NoIndexFilters(keys: seq<string>)
    requires forall i :: 0 <= i < |keys| ==> !IsIndexKey(keys[i])
    ensures FilterIndexKeys(keys, true) == [] && FilterIndexKeys(keys, false) == keys
  {
    if keys != [] {
      NoIndexFilters(keys[1..]);
    }
  }
  /** The decimal form of a number up to the largest array index is an index key naming that number. */
  lemma IndexKeyOfNat(n: nat)
    requires n <= MaxArrayIndex
    ensures IsIndexKey(NatToString(n)) && KeyNumber(NatToString(n)) == n
  {
    ParseNatToString(n);
  }

  lemma {:induction false} AllIndexFilters(keys: seq<string>)
    requires forall i :: 0 <= i < |keys| ==> IsIndexKey(keys[i])
    ensures FilterIndexKeys(keys, true) == keys && FilterIndexKeys(keys, false) == []
  {
    if keys != [] {
      AllIndexFilters(keys[1..]);
      assert keys == [keys[0]] + keys[1..];
    }
  }

  /** Sorting a sequence that is already in order gives it back unchanged. */
  lemma {:induction false} SortBySorted(key: string -> nat, ks: seq<string>)
    requires SortedBy(key, ks)
    ensures SortBy(key, ks) == ks
  {
    if ks != [] {
      assert SortedBy(key, ks[1..]) by {
        forall i, j | 0 <= i < j < |ks[1..]| ensures key(ks[1..][i]) <= key(ks[1..][j]) {
          assert ks[1..][i] == ks[i + 1] && ks[1..][j] == ks[j + 1];
        }
      }
      SortBySorted(key, ks[1..]);
      assert ks == [ks[0]] + ks[1..];
    }
  }

  /** `Object.entries` of an array lists its indices as index keys, and in
      ascending order: exactly the order in which an object holding those keys
      enumerates them, for any array of at most 2^32 - 1 items. */
  lemma ArrayEntriesInKeyOrder(items: seq<Json>)
    requires |items| <= MaxArrayIndex + 1
    ensures var keys := Keys(ArrayEntries(items));
      && (forall k :: 0 <= k < |keys| ==> IsIndexKey(keys[k]) && KeyNumber(keys[k]) == k)
      && JsKeyOrder(keys) == keys
  {
    var keys := Keys(ArrayEntries(items));
    forall k | 0 <= k < |keys| ensures IsIndexKey(keys[k]) && KeyNumber(keys[k]) == k {
      IndexKeyOfNat(k);
    }
    AllIndexFilters(keys);
    assert SortedByNumber(keys);
    SortBySorted(KeyNumber, keys);
    assert FilterIndexKeys(keys, false) == [];
    assert keys + [] == keys;
  }
}
