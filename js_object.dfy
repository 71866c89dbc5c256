/** How a plain JavaScript object (`{}`) used as a dictionary behaves with string keys: which keys
    are inherited from `Object.prototype`, and the order in which `Object.keys` lists own keys —
    array-index keys first, in ascending numeric order, then every other key in insertion order. */
module JsObject {
  import Numbers

  /** The names `{}` inherits from `Object.prototype`; `obj[name]` is truthy on a fresh object. */
  const InheritedNames: set<string> := {
    "constructor", "hasOwnProperty", "isPrototypeOf", "propertyIsEnumerable", "toString",
    "toLocaleString", "valueOf", "__proto__", "__defineGetter__", "__defineSetter__",
    "__lookupGetter__", "__lookupSetter__"
  }

  /** An array-index key: a canonical decimal numeral (no sign, no leading zero) below 2^32 - 1. */
  predicate IsIndexKey(s: string) {
    && |s| > 0
    && (forall i :: 0 <= i < |s| ==> Numbers.IsDigit(s[i]))
    && (s[0] != '0' || |s| == 1)
    && Numbers.ParseNat(s) < 0xFFFF_FFFF
  }

  /** The number an index key names; other keys rank 0 (they are never sorted). */
  function Rank(s: string): nat {
    if IsIndexKey(s) then Numbers.ParseNat(s) else 0
  }

  /** `ks` in non-decreasing order of `rank`. */
  predicate Ascending<T>(ks: seq<T>, rank: T -> nat) {
    forall i, j :: 0 <= i < j < |ks| ==> rank(ks[i]) <= rank(ks[j])
  }

  /** Every element of `ks` has rank at least `b`. */
  predicate AtLeast<T>(b: nat, ks: seq<T>, rank: T -> nat) {
    forall i :: 0 <= i < |ks| ==> b <= rank(ks[i])
  }

  /** The elements of `ks` that satisfy `p`, in their original order. */
  function Select<T>(ks: seq<T>, p: T -> bool): (r: seq<T>)
    ensures forall i :: 0 <= i < |r| ==> p(r[i])
  {
    if ks == [] then []
    else Select(ks[..|ks| - 1], p) + (if p(ks[|ks| - 1]) then [ks[|ks| - 1]] else [])
  }

  /** The elements of `ks` that do not satisfy `p`, in their original order. */
  function Reject<T>(ks: seq<T>, p: T -> bool): (r: seq<T>)
    ensures forall i :: 0 <= i < |r| ==> !p(r[i])
  {
    if ks == [] then []
    else Reject(ks[..|ks| - 1], p) + (if p(ks[|ks| - 1]) then [] else [ks[|ks| - 1]])
  }

  /** Puts `k` into `ks` before the first element of larger rank. */
  function Insert<T>(k: T, ks: seq<T>, rank: T -> nat): (r: seq<T>)
    ensures |r| == |ks| + 1
  {
    if ks == [] then [k]
    else if rank(k) <= rank(ks[0]) then [k] + ks
    else [ks[0]] + Insert(k, ks[1..], rank)
  }

  /** Insertion sort by `rank`; stable, as `Object.keys` needs nothing more. */
  function Sort<T>(ks: seq<T>, rank: T -> nat): (r: seq<T>)
    ensures |r| == |ks|
  {
    if ks == [] then []
    else Insert(ks[|ks| - 1], Sort(ks[..|ks| - 1], rank), rank)
  }

  /** The array-index keys among `ks`, in creation order. */
  function IndexKeys(ks: seq<string>): seq<string> {
    Select(ks, IsIndexKey)
  }

  /** The other keys among `ks`, in creation order. */
  function OtherKeys(ks: seq<string>): seq<string> {
    Reject(ks, IsIndexKey)
  }

  /** `Object.keys(obj)` for an object whose own keys were created in the order `ks`. */
  function Keys(ks: seq<string>): seq<string> {
    Sort(IndexKeys(ks), Rank) + OtherKeys(ks)
  }

  lemma {:induction false} InsertCounts<T>(k: T, ks: seq<T>, rank: T -> nat)
    ensures multiset(Insert(k, ks, rank)) == multiset(ks) + multiset{k}
  {
    if ks != [] && rank(k) > rank(ks[0]) {
      InsertCounts(k, ks[1..], rank);
      assert ks == [ks[0]] + ks[1..];
    }
  }

  lemma {:induction false} InsertAtLeast<T>(b: nat, k: T, ks: seq<T>, rank: T -> nat)
    requires b <= rank(k) && AtLeast(b, ks, rank)
    ensures AtLeast(b, Insert(k, ks, rank), rank)
  {
    if ks != [] && rank(k) > rank(ks[0]) {
      InsertAtLeast(b, k, ks[1..], rank);
      assert Insert(k, ks, rank) == [ks[0]] + Insert(k, ks[1..], rank);
    }
  }

  lemma {:induction false} InsertAscending<T>(k: T, ks: seq<T>, rank: T -> nat)
    requires Ascending(ks, rank)
    ensures Ascending(Insert(k, ks, rank), rank)
  {
    if ks == [] {
    } else if rank(k) <= rank(ks[0]) {
      var r := Insert(k, ks, rank);
      assert r == [k] + ks;
      assert forall j :: 1 <= j < |r| ==> r[j] == ks[j - 1] && rank(ks[0]) <= rank(r[j]);
    } else {
      var tail := ks[1..];
      InsertAscending(k, tail, rank);
      assert AtLeast(rank(ks[0]), tail, rank);
      InsertAtLeast(rank(ks[0]), k, tail, rank);
      assert Insert(k, ks, rank) == [ks[0]] + Insert(k, tail, rank);
    }
  }

  /** The sort orders by rank and keeps every element exactly once. */
  lemma {:induction false} SortSpec<T>(ks: seq<T>, rank: T -> nat)
    ensures Ascending(Sort(ks, rank), rank)
    ensures multiset(Sort(ks, rank)) == multiset(ks)
  {
    if ks != [] {
      var init, last := ks[..|ks| - 1], ks[|ks| - 1];
      SortSpec(init, rank);
      InsertAscending(last, Sort(init, rank), rank);
      InsertCounts(last, Sort(init, rank), rank);
      assert ks == init + [last];
    }
  }

  /** Selecting and rejecting by the same test splits `ks` without loss. */
  lemma {:induction false} SplitCounts<T>(ks: seq<T>, p: T -> bool)
    ensures multiset(Select(ks, p)) + multiset(Reject(ks, p)) == multiset(ks)
  {
    if ks != [] {
      var init, last := ks[..|ks| - 1], ks[|ks| - 1];
      SplitCounts(init, p);
      assert ks == init + [last];
    }
  }

  /** `Object.keys` lists every own key exactly once: first the array-index keys in ascending
      numeric order, then the other keys in the order they were created. */
  lemma KeysOrder(ks: seq<string>)
    ensures multiset(Keys(ks)) == multiset(ks) && |Keys(ks)| == |ks|
    ensures var n := |IndexKeys(ks)|;
            && n <= |ks|
            && (forall i :: 0 <= i < n ==> IsIndexKey(Keys(ks)[i]))
            && (forall i, j :: 0 <= i < j < n ==> Rank(Keys(ks)[i]) <= Rank(Keys(ks)[j]))
            && Keys(ks)[n..] == OtherKeys(ks)
  {
    var sorted := Sort(IndexKeys(ks), Rank);
    SortSpec(IndexKeys(ks), Rank);
    SplitCounts(ks, IsIndexKey);
    var n := |IndexKeys(ks)|;
    assert Keys(ks)[..n] == sorted;
    forall i | 0 <= i < n
      ensures IsIndexKey(Keys(ks)[i])
    {
      assert sorted[i] in multiset(sorted);
      assert sorted[i] in IndexKeys(ks);
    }
    assert |multiset(Keys(ks))| == |multiset(ks)|;
  }

  /** Keys that are not array indices keep their insertion order. */
  lemma {:induction false} OtherKeysAppend(ks: seq<string>, k: string)
    ensures OtherKeys(ks + [k]) == OtherKeys(ks) + (if IsIndexKey(k) then [] else [k])
  {
    assert (ks + [k])[..|ks|] == ks;
  }

  /** A key created after another one is still listed before it when it is an array index and
      the other is not: the labels "b" then "1" are listed as "1", "b". */
  lemma IndexKeysComeFirst()
    ensures Keys(["b", "1"]) == ["1", "b"]
  {
    assert Numbers.ParseNat("1") == 1;
    assert IsIndexKey("1") && Rank("1") == 1;
    assert !IsIndexKey("b");
    assert ["b", "1"][..1] == ["b"];
    assert IndexKeys(["b"]) == [] && OtherKeys(["b"]) == ["b"];
  }
}
