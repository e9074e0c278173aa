/**
 * The list operations every screen and the local store repeat over their
 * records, written once over any record type with a string key:
 * `filter(x => key(x) !== k)`, `map(x => key(x) === k ? y : x)`,
 * `findIndex` followed by `list[index] = y` or `push(y)`, and `find`.
 */
module KeyedList {
  import opened Text

  /** Some record of `s` has key `k`. */
  predicate HasKey<T>(s: seq<T>, k: string, keyOf: T -> string) {
    exists i :: 0 <= i < |s| && keyOf(s[i]) == k
  }

  /** `s.findIndex(x => keyOf(x) === k)`, with `None` for JavaScript's `-1`. */
  function FirstIndex<T>(s: seq<T>, k: string, keyOf: T -> string): (r: Option<nat>)
    ensures r.Some? ==> r.value < |s| && keyOf(s[r.value]) == k
    ensures r.Some? ==> forall j :: 0 <= j < r.value ==> keyOf(s[j]) != k
    ensures r.None? <==> !HasKey(s, k, keyOf)
    decreases |s|
  {
    if s == [] then None
    else if keyOf(s[0]) == k then Some(0)
    else
      match FirstIndex(s[1..], k, keyOf)
      case None =>
        assert forall j :: 1 <= j < |s| ==> s[j] == s[1..][j - 1];
        None
      case Some(i) =>
        assert forall j :: 1 <= j <= i ==> s[j] == s[1..][j - 1];
        Some(i + 1)
  }

  /** The local-store upsert: the first record with the key of `x` is
    * overwritten in place, or `x` is pushed at the end when there is none. */
  function UpsertFirst<T>(s: seq<T>, x: T, keyOf: T -> string): seq<T> {
    match FirstIndex(s, keyOf(x), keyOf)
    case Some(i) => s[i := x]
    case None => s + [x]
  }

  /** `s.filter(x => keyOf(x) !== k)` */
  function RemoveKey<T>(s: seq<T>, k: string, keyOf: T -> string): seq<T>
    decreases |s|
  {
    if s == [] then []
    else if keyOf(s[0]) == k then RemoveKey(s[1..], k, keyOf)
    else [s[0]] + RemoveKey(s[1..], k, keyOf)
  }

  /** `s.map(x => keyOf(x) === k ? y : x)`: EVERY record with key `k` becomes `y`. */
  function ReplaceKey<T>(s: seq<T>, k: string, y: T, keyOf: T -> string): seq<T> {
    seq(|s|, i requires 0 <= i < |s| => if keyOf(s[i]) == k then y else s[i])
  }

  /** `s.findIndex(p)` for an arbitrary predicate. */
  function IndexWhere<T>(s: seq<T>, p: T -> bool): (r: Option<nat>)
    ensures r.Some? ==> r.value < |s| && p(s[r.value])
    ensures r.Some? ==> forall j :: 0 <= j < r.value ==> !p(s[j])
    ensures r.None? <==> forall j :: 0 <= j < |s| ==> !p(s[j])
    decreases |s|
  {
    if s == [] then None
    else if p(s[0]) then Some(0)
    else
      match IndexWhere(s[1..], p)
      case None =>
        assert forall j :: 1 <= j < |s| ==> s[j] == s[1..][j - 1];
        None
      case Some(i) =>
        assert forall j :: 1 <= j <= i ==> s[j] == s[1..][j - 1];
        Some(i + 1)
  }

  /** `s.find(p)`: the first record satisfying `p`, if any. */
  function FindFirst<T>(s: seq<T>, p: T -> bool): (r: Option<T>)
    ensures r.None? <==> forall j :: 0 <= j < |s| ==> !p(s[j])
    ensures r.Some? ==> exists i :: 0 <= i < |s| && s[i] == r.value && p(s[i]) &&
                                   forall j :: 0 <= j < i ==> !p(s[j])
  {
    match IndexWhere(s, p)
    case Some(i) => Some(s[i])
    case None => None
  }

  /** `find` returns the first record that satisfies `p`. */
  lemma FindFirstIsFirstMatch<T>(s: seq<T>, p: T -> bool, i: nat)
    requires i < |s| && p(s[i]) && forall j :: 0 <= j < i ==> !p(s[j])
    ensures FindFirst(s, p) == Some(s[i])
  {
    var k := IndexWhere(s, p).value;
    assert !(k < i) && !(i < k);
  }

  /** `s.filter(p)` */
  function Filter<T>(s: seq<T>, p: T -> bool): (r: seq<T>)
    ensures |r| <= |s|
    decreases |s|
  {
    if s == [] then [] else (if p(s[0]) then [s[0]] else []) + Filter(s[1..], p)
  }

  /** A filter keeps exactly the records satisfying `p`. */
  lemma {:induction false} FilterMembers<T>(s: seq<T>, p: T -> bool)
    ensures forall x :: x in Filter(s, p) <==> x in s && p(x)
    decreases |s|
  {
    if s != [] {
      FilterMembers(s[1..], p);
      assert forall x :: x in s <==> x == s[0] || x in s[1..];
    }
  }

  /** Filtering distributes over concatenation. */
  lemma {:induction false} FilterConcat<T>(a: seq<T>, b: seq<T>, p: T -> bool)
    ensures Filter(a + b, p) == Filter(a, p) + Filter(b, p)
    decreases |a|
  {
    if a == [] {
      assert a + b == b;
    } else {
      var head := if p(a[0]) then [a[0]] else [];
      assert (a + b)[0] == a[0] && (a + b)[1..] == a[1..] + b;
      assert Filter(a + b, p) == head + Filter(a[1..] + b, p);
      assert Filter(a, p) == head + Filter(a[1..], p);
      FilterConcat(a[1..], b, p);
      assert head + (Filter(a[1..], p) + Filter(b, p)) == (head + Filter(a[1..], p)) + Filter(b, p);
    }
  }

  /** A kept record `s[k]` lands in the filtered list right after the
    * records kept from before it. */
  lemma FilterPosition<T>(s: seq<T>, p: T -> bool, k: nat)
    requires k < |s| && p(s[k])
    ensures |Filter(s[..k], p)| < |Filter(s, p)|
    ensures Filter(s, p)[|Filter(s[..k], p)|] == s[k]
  {
    assert s == s[..k] + s[k..];
    FilterConcat(s[..k], s[k..], p);
    assert Filter(s[k..], p) == [s[k]] + Filter(s[k + 1..], p) by {
      assert s[k..][0] == s[k] && s[k..][1..] == s[k + 1..];
    }
  }

  /** A longer prefix that adds a kept record keeps more records. */
  lemma FilterPrefixGrows<T>(s: seq<T>, p: T -> bool, k1: nat, k2: nat)
    requires k1 < k2 <= |s| && p(s[k1])
    ensures |Filter(s[..k1], p)| < |Filter(s[..k2], p)|
  {
    var pre := s[..k2];
    assert pre == pre[..k1] + pre[k1..] && pre[..k1] == s[..k1];
    FilterConcat(pre[..k1], pre[k1..], p);
    assert pre[k1..][0] == s[k1];
  }

  /** Kept records keep their order: each kept `s[k]` sits at the count of
    * records kept before it, and that count grows past every kept record. */
  lemma FilterOrder<T>(s: seq<T>, p: T -> bool)
    ensures forall k :: 0 <= k < |s| && p(s[k]) ==>
      |Filter(s[..k], p)| < |Filter(s, p)| && Filter(s, p)[|Filter(s[..k], p)|] == s[k]
    ensures forall k1, k2 :: 0 <= k1 < k2 <= |s| && p(s[k1]) ==>
      |Filter(s[..k1], p)| < |Filter(s[..k2], p)|
  {
    forall k | 0 <= k < |s| && p(s[k])
      ensures |Filter(s[..k], p)| < |Filter(s, p)| && Filter(s, p)[|Filter(s[..k], p)|] == s[k]
    {
      FilterPosition(s, p, k);
    }
    forall k1, k2 | 0 <= k1 < k2 <= |s| && p(s[k1])
      ensures |Filter(s[..k1], p)| < |Filter(s[..k2], p)|
    {
      FilterPrefixGrows(s, p, k1, k2);
    }
  }

  /** A filter every record passes keeps the whole list. */
  lemma {:induction false} FilterKeepsAll<T>(s: seq<T>, p: T -> bool)
    requires forall i :: 0 <= i < |s| ==> p(s[i])
    ensures Filter(s, p) == s
    decreases |s|
  {
    if s != [] {
      FilterKeepsAll(s[1..], p);
    }
  }

  // ---------------------------------------------------------------------
  // Upsert
  // ---------------------------------------------------------------------

  /** With a record of the same key present, the upsert keeps the length,
    * puts `x` where the FIRST such record was, and leaves every other
    * position alone; otherwise it appends `x` and nothing else changes. */
  lemma UpsertFirstSpec<T>(s: seq<T>, x: T, keyOf: T -> string)
    ensures HasKey(s, keyOf(x), keyOf) ==>
      var i := FirstIndex(s, keyOf(x), keyOf).value;
      && |UpsertFirst(s, x, keyOf)| == |s|
      && UpsertFirst(s, x, keyOf)[i] == x
      && (forall j :: 0 <= j < i ==> keyOf(s[j]) != keyOf(x))
      && (forall j :: 0 <= j < |s| && j != i ==> UpsertFirst(s, x, keyOf)[j] == s[j])
    ensures !HasKey(s, keyOf(x), keyOf) ==> UpsertFirst(s, x, keyOf) == s + [x]
  {
  }

  /** After an upsert the key of `x` is present, and `x` is the record `find`
    * returns for it. */
  lemma UpsertThenFind<T>(s: seq<T>, x: T, keyOf: T -> string)
    ensures HasKey(UpsertFirst(s, x, keyOf), keyOf(x), keyOf)
    ensures var r := UpsertFirst(s, x, keyOf);
            FirstIndex(r, keyOf(x), keyOf).Some? && r[FirstIndex(r, keyOf(x), keyOf).value] == x
  {
    var r := UpsertFirst(s, x, keyOf);
    match FirstIndex(s, keyOf(x), keyOf)
    case Some(i) =>
      assert keyOf(r[i]) == keyOf(x);
    case None =>
      assert r[|s|] == x;
  }

  /** Upserting the same record twice is the same as upserting it once. */
  lemma UpsertIdempotent<T>(s: seq<T>, x: T, keyOf: T -> string)
    ensures UpsertFirst(UpsertFirst(s, x, keyOf), x, keyOf) == UpsertFirst(s, x, keyOf)
  {
    UpsertThenFind(s, x, keyOf);
  }

  // ---------------------------------------------------------------------
  // Remove
  // ---------------------------------------------------------------------

  /** Filtering distributes over concatenation: the kept records stay in
    * their original order. */
  lemma {:induction false} RemoveKeyConcat<T>(a: seq<T>, b: seq<T>, k: string, keyOf: T -> string)
    ensures RemoveKey(a + b, k, keyOf) == RemoveKey(a, k, keyOf) + RemoveKey(b, k, keyOf)
    decreases |a|
  {
    if a == [] {
      assert a + b == b;
    } else {
      assert (a + b)[1..] == a[1..] + b;
      RemoveKeyConcat(a[1..], b, k, keyOf);
    }
  }

  /** No record with key `k` survives; every record with another key does;
    * nothing new appears. */
  lemma {:induction false} RemoveKeyMembers<T>(s: seq<T>, k: string, keyOf: T -> string)
    ensures forall x :: x in RemoveKey(s, k, keyOf) <==> x in s && keyOf(x) != k
    ensures |RemoveKey(s, k, keyOf)| <= |s|
    decreases |s|
  {
    if s != [] {
      RemoveKeyMembers(s[1..], k, keyOf);
      assert forall x :: x in s <==> x == s[0] || x in s[1..];
    }
  }

  /** After the removal no record has the key. */
  lemma RemovedKeyAbsent<T>(s: seq<T>, k: string, keyOf: T -> string)
    ensures !HasKey(RemoveKey(s, k, keyOf), k, keyOf)
  {
    var r := RemoveKey(s, k, keyOf);
    RemoveKeyMembers(s, k, keyOf);
    forall i | 0 <= i < |r| ensures keyOf(r[i]) != k {
      assert r[i] in r;
    }
  }

  /** Removing a key that no record has changes nothing; removing one that
    * some record has shortens the list. */
  lemma {:induction false} RemoveKeyLength<T>(s: seq<T>, k: string, keyOf: T -> string)
    ensures !HasKey(s, k, keyOf) ==> RemoveKey(s, k, keyOf) == s
    ensures HasKey(s, k, keyOf) ==> |RemoveKey(s, k, keyOf)| < |s|
    decreases |s|
  {
    if s != [] {
      RemoveKeyLength(s[1..], k, keyOf);
      RemoveKeyMembers(s[1..], k, keyOf);
      assert forall j :: 1 <= j < |s| ==> s[j] == s[1..][j - 1];
      if HasKey(s, k, keyOf) && keyOf(s[0]) != k {
        var i :| 0 <= i < |s| && keyOf(s[i]) == k;
        assert keyOf(s[1..][i - 1]) == k;
      }
    }
  }

  /** Appending a record whose key is new keeps the keys unique. */
  lemma AppendKeepsKeysUnique<T>(s: seq<T>, x: T, keyOf: T -> string)
    requires forall i, j :: 0 <= i < j < |s| ==> keyOf(s[i]) != keyOf(s[j])
    requires !HasKey(s, keyOf(x), keyOf)
    ensures var r := s + [x];
            forall i, j :: 0 <= i < j < |r| ==> keyOf(r[i]) != keyOf(r[j])
  {
  }

  // ---------------------------------------------------------------------
  // Replace
  // ---------------------------------------------------------------------

  /** `map` replacement keeps the length and the order; a record with another
    * key stays where it was, and when `y` carries the key it replaces, the
    * key at every position is unchanged. */
  lemma ReplaceKeySpec<T>(s: seq<T>, k: string, y: T, keyOf: T -> string)
    ensures |ReplaceKey(s, k, y, keyOf)| == |s|
    ensures forall i :: 0 <= i < |s| && keyOf(s[i]) != k ==> ReplaceKey(s, k, y, keyOf)[i] == s[i]
    ensures forall i :: 0 <= i < |s| && keyOf(s[i]) == k ==> ReplaceKey(s, k, y, keyOf)[i] == y
    ensures keyOf(y) == k ==> forall i :: 0 <= i < |s| ==> keyOf(ReplaceKey(s, k, y, keyOf)[i]) == keyOf(s[i])
  {
  }

  /** Replacing a key no record has is the identity. */
  lemma ReplaceAbsentKey<T>(s: seq<T>, k: string, y: T, keyOf: T -> string)
    requires !HasKey(s, k, keyOf)
    ensures ReplaceKey(s, k, y, keyOf) == s
  {
  }

  /** When keys are unique, `map` replacement and the store's first-match
    * upsert agree on a present key. */
  lemma {:induction false} ReplaceAgreesWithUpsert<T>(s: seq<T>, y: T, keyOf: T -> string)
    requires HasKey(s, keyOf(y), keyOf)
    requires forall i, j :: 0 <= i < j < |s| ==> keyOf(s[i]) != keyOf(s[j])
    ensures ReplaceKey(s, keyOf(y), y, keyOf) == UpsertFirst(s, y, keyOf)
  {
    var i := FirstIndex(s, keyOf(y), keyOf).value;
    var r := ReplaceKey(s, keyOf(y), y, keyOf);
    var u := UpsertFirst(s, y, keyOf);
    assert |r| == |u|;
    forall j | 0 <= j < |s| ensures r[j] == u[j] {
      if j != i {
        assert keyOf(s[j]) != keyOf(s[i]);
      }
    }
  }
}
