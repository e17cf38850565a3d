/**
 * The Array.prototype operations the scripts build on, over sequences:
 * `filter`, `findIndex`/`indexOf`, and a stable `sort` driven by a comparator
 * that returns a negative, zero or positive number.
 */
module Seqs {

  /** `r` is `s` with some elements left out, the rest in their original order. */
  ghost predicate IsSubsequence<T>(r: seq<T>, s: seq<T>)
    decreases |s|
  {
    if r == [] then true
    else if s == [] then false
    else if r[0] == s[0] then IsSubsequence(r[1..], s[1..])
    else IsSubsequence(r, s[1..])
  }

  lemma {:induction false} SubsequenceOfSelf<T>(s: seq<T>)
    ensures IsSubsequence(s, s)
    decreases |s|
  {
    if s != [] {
      SubsequenceOfSelf(s[1..]);
    }
  }

  /**
   * `s.filter(p)`: exactly the elements of `s` that satisfy `p`, each as often as
   * in `s`, in their original order.
   */
  function Filter<T(!new)>(s: seq<T>, p: T -> bool): (r: seq<T>)
    ensures forall x :: x in r <==> x in s && p(x)
    ensures IsSubsequence(r, s)
  {
    if s == [] then []
    else
      var rest := Filter(s[1..], p);
      assert s == [s[0]] + s[1..];
      if p(s[0]) then
        var r := [s[0]] + rest;
        assert r[1..] == rest;
        r
      else
        SubsequenceSkip(rest, s);
        rest
  }

  /** Each element passing `p` is kept as often as it occurs; the others are dropped. */
  lemma {:induction false} FilterCounts<T(!new)>(s: seq<T>, p: T -> bool)
    ensures forall x :: multiset(Filter(s, p))[x] == if p(x) then multiset(s)[x] else 0
  {
    if s != [] {
      FilterCounts(s[1..], p);
      assert s == [s[0]] + s[1..];
      if p(s[0]) {
        assert Filter(s, p) == [s[0]] + Filter(s[1..], p);
      } else {
        assert Filter(s, p) == Filter(s[1..], p);
      }
    }
  }

  /** Filtering never lengthens a sequence, and keeps its full length only when every element passes. */
  lemma {:induction false} FilterLength<T(!new)>(s: seq<T>, p: T -> bool)
    ensures |Filter(s, p)| <= |s|
    ensures |Filter(s, p)| == |s| ==> forall i :: 0 <= i < |s| ==> p(s[i])
  {
    if s != [] {
      var t := s[1..];
      FilterLength(t, p);
      assert s == [s[0]] + t;
      if p(s[0]) {
        assert Filter(s, p) == [s[0]] + Filter(t, p);
        if |Filter(s, p)| == |s| {
          forall i | 0 <= i < |s| ensures p(s[i]) {
            if i > 0 { assert s[i] == t[i - 1]; }
          }
        }
      } else {
        assert Filter(s, p) == Filter(t, p);
      }
    }
  }

  /** When every element passes, filtering is the identity. */
  lemma {:induction false} FilterKeepsAll<T(!new)>(s: seq<T>, p: T -> bool)
    requires forall i :: 0 <= i < |s| ==> p(s[i])
    ensures Filter(s, p) == s
  {
    if s != [] {
      var t := s[1..];
      assert p(s[0]);
      assert forall i :: 0 <= i < |t| ==> p(t[i]) by {
        forall i | 0 <= i < |t| ensures p(t[i]) { assert t[i] == s[i + 1]; }
      }
      FilterKeepsAll(t, p);
      assert s == [s[0]] + t;
    }
  }

  /** Filtering a longer sequence extends the result by the new element when it passes. */
  lemma {:induction false} FilterSnoc<T(!new)>(s: seq<T>, x: T, p: T -> bool)
    ensures Filter(s + [x], p) == Filter(s, p) + (if p(x) then [x] else [])
    decreases |s|
  {
    if s == [] {
      assert [x][1..] == [];
    } else {
      var t := s + [x];
      assert t[0] == s[0] && t[1..] == s[1..] + [x];
      FilterSnoc(s[1..], x, p);
      var w := if p(x) then [x] else [];
      if p(s[0]) {
        assert Filter(t, p) == [s[0]] + Filter(t[1..], p);
        assert Filter(s, p) == [s[0]] + Filter(s[1..], p);
        assert Filter(t, p) == [s[0]] + (Filter(s[1..], p) + w);
      } else {
        assert Filter(t, p) == Filter(t[1..], p);
        assert Filter(s, p) == Filter(s[1..], p);
      }
    }
  }

  /** A subsequence of a sequence whose ranks strictly increase has strictly increasing ranks too. */
  lemma {:induction false} SubsequenceKeepsOrder<T>(r: seq<T>, s: seq<T>, rank: T -> int)
    requires IsSubsequence(r, s)
    requires forall i, j :: 0 <= i < j < |s| ==> rank(s[i]) < rank(s[j])
    ensures forall i, j :: 0 <= i < j < |r| ==> rank(r[i]) < rank(r[j])
    decreases |s|
  {
    if r != [] {
      if r[0] == s[0] {
        SubsequenceKeepsOrder(r[1..], s[1..], rank);
        forall i, j | 0 <= i < j < |r| ensures rank(r[i]) < rank(r[j]) {
          if i == 0 {
            var k := SubsequenceIndex(r[1..], s[1..], j - 1);
            assert r[j] == s[1..][k] == s[k + 1];
          } else {
            assert r[i] == r[1..][i - 1] && r[j] == r[1..][j - 1];
          }
        }
      } else {
        SubsequenceKeepsOrder(r, s[1..], rank);
      }
    }
  }

  /** Every element of a subsequence sits somewhere in the sequence. */
  lemma {:induction false} SubsequenceIndex<T>(r: seq<T>, s: seq<T>, j: nat) returns (k: nat)
    requires IsSubsequence(r, s) && j < |r|
    ensures k < |s| && s[k] == r[j]
    decreases |s|
  {
    if r[0] == s[0] {
      if j == 0 {
        k := 0;
      } else {
        var k' := SubsequenceIndex(r[1..], s[1..], j - 1);
        k := k' + 1;
      }
    } else {
      var k' := SubsequenceIndex(r, s[1..], j);
      k := k' + 1;
    }
  }

  lemma SubsequenceSkip<T>(r: seq<T>, s: seq<T>)
    requires s != [] && IsSubsequence(r, s[1..])
    ensures IsSubsequence(r, s)
    decreases |s|, |r|
  {
    if r != [] && r[0] == s[0] {
      SubsequenceDropHead(r, s[1..]);
    }
  }

  lemma SubsequenceDropHead<T>(r: seq<T>, s: seq<T>)
    requires r != [] && IsSubsequence(r, s)
    ensures IsSubsequence(r[1..], s)
    decreases |s|, |r|
  {
    if r[0] != s[0] {
      SubsequenceDropHead(r, s[1..]);
      SubsequenceSkip(r[1..], s);
    } else if r[1..] != [] {
      SubsequenceSkip(r[1..], s);
    }
  }

  /** `i` is the first position of `s` whose key is `key`. */
  ghost predicate IsFirst<T, K>(s: seq<T>, i: int, key: K, keyOf: T -> K) {
    0 <= i < |s| && keyOf(s[i]) == key && forall j :: 0 <= j < i ==> keyOf(s[j]) != key
  }

  /** `findIndex(x => keyOf(x) === key)`: the first position with that key, or -1. */
  function IndexOf<T, K(==)>(s: seq<T>, key: K, keyOf: T -> K): (r: int)
    ensures -1 <= r < |s|
    ensures r >= 0 ==> IsFirst(s, r, key, keyOf)
    ensures r == -1 <==> forall j :: 0 <= j < |s| ==> keyOf(s[j]) != key
  {
    if s == [] then -1
    else if keyOf(s[0]) == key then 0
    else
      var k := IndexOf(s[1..], key, keyOf);
      assert forall j :: 1 <= j < |s| ==> s[j] == s[1..][j - 1];
      if k == -1 then -1 else k + 1
  }

  /** Only one position can be the first one with a given key. */
  lemma FirstIsUnique<T, K>(s: seq<T>, i: int, j: int, key: K, keyOf: T -> K)
    requires IsFirst(s, i, key, keyOf) && IsFirst(s, j, key, keyOf)
    ensures i == j
  {
  }

  /** The identity, as the key of `indexOf`, which compares elements with `===`. */
  function Self<T>(x: T): T { x }

  /**
   * A comparator that can drive a sort: "may stay before" (`cmp(a, b) <= 0`)
   * is total and transitive.
   */
  ghost predicate IsTotalPreorder<T(!new)>(cmp: (T, T) -> int) {
    && (forall a, b :: cmp(a, b) <= 0 || cmp(b, a) <= 0)
    && (forall a, b, c :: cmp(a, b) <= 0 && cmp(b, c) <= 0 ==> cmp(a, c) <= 0)
  }

  /** Every pair of elements is in comparator order. */
  ghost predicate SortedBy<T>(s: seq<T>, cmp: (T, T) -> int) {
    forall i, j :: 0 <= i < j < |s| ==> cmp(s[i], s[j]) <= 0
  }

  /** Puts `x` before the first element it may precede. */
  function InsertBy<T>(x: T, s: seq<T>, cmp: (T, T) -> int): (r: seq<T>)
    ensures multiset(r) == multiset(s) + multiset{x}
  {
    if s == [] then [x]
    else if cmp(x, s[0]) <= 0 then [x] + s
    else
      assert s == [s[0]] + s[1..];
      [s[0]] + InsertBy(x, s[1..], cmp)
  }

  /**
   * `[...s].sort(cmp)`: a stable sort. Each element is inserted in front of the
   * elements that compare equal to it, which came later in `s`.
   */
  function SortBy<T>(s: seq<T>, cmp: (T, T) -> int): (r: seq<T>)
    ensures multiset(r) == multiset(s)
    ensures |r| == |s|
  {
    if s == [] then []
    else
      assert s == [s[0]] + s[1..];
      InsertBy(s[0], SortBy(s[1..], cmp), cmp)
  }

  lemma InsertByMember<T>(x: T, s: seq<T>, cmp: (T, T) -> int, y: T)
    requires y in InsertBy(x, s, cmp)
    ensures y == x || y in s
  {
    assert y in multiset(InsertBy(x, s, cmp));
  }

  /** An element that may precede every element of a sorted sequence can go in front of it. */
  lemma ConsSorted<T>(y: T, t: seq<T>, cmp: (T, T) -> int)
    requires SortedBy(t, cmp)
    requires forall j :: 0 <= j < |t| ==> cmp(y, t[j]) <= 0
    ensures SortedBy([y] + t, cmp)
  {
    var r := [y] + t;
    forall i, j | 0 <= i < j < |r| ensures cmp(r[i], r[j]) <= 0 {
      assert r[j] == t[j - 1];
      if i > 0 {
        assert r[i] == t[i - 1];
      }
    }
  }

  lemma {:induction false} InsertBySorted<T(!new)>(x: T, s: seq<T>, cmp: (T, T) -> int)
    requires IsTotalPreorder(cmp) && SortedBy(s, cmp)
    ensures SortedBy(InsertBy(x, s, cmp), cmp)
    decreases |s|
  {
    if s == [] {
    } else if cmp(x, s[0]) <= 0 {
      forall j | 0 <= j < |s| ensures cmp(x, s[j]) <= 0 {
        if j > 0 {
          assert cmp(s[0], s[j]) <= 0;
        }
      }
      ConsSorted(x, s, cmp);
    } else {
      var tail := InsertBy(x, s[1..], cmp);
      InsertBySorted(x, s[1..], cmp);
      assert SortedBy(s[1..], cmp) by {
        forall i, j | 0 <= i < j < |s[1..]| ensures cmp(s[1..][i], s[1..][j]) <= 0 {
          assert s[1..][i] == s[i + 1] && s[1..][j] == s[j + 1];
        }
      }
      assert cmp(s[0], x) <= 0;
      forall j | 0 <= j < |tail| ensures cmp(s[0], tail[j]) <= 0 {
        var y := tail[j];
        InsertByMember(x, s[1..], cmp, y);
        if y != x {
          var k :| 0 <= k < |s[1..]| && s[1..][k] == y;
          assert s[k + 1] == y;
        }
      }
      ConsSorted(s[0], tail, cmp);
    }
  }

  /** The sort yields its input in comparator order. */
  lemma {:induction false} SortBySorted<T(!new)>(s: seq<T>, cmp: (T, T) -> int)
    requires IsTotalPreorder(cmp)
    ensures SortedBy(SortBy(s, cmp), cmp)
    decreases |s|
  {
    if s != [] {
      SortBySorted(s[1..], cmp);
      InsertBySorted(s[0], SortBy(s[1..], cmp), cmp);
    }
  }

  /** The elements that may stand on either side of `e`: those the comparator ties with it. */
  function TiesWith<T>(cmp: (T, T) -> int, e: T): T -> bool {
    (y: T) => cmp(y, e) <= 0 && cmp(e, y) <= 0
  }

  lemma FilterCons<T(!new)>(x: T, t: seq<T>, p: T -> bool)
    ensures Filter([x] + t, p) == if p(x) then [x] + Filter(t, p) else Filter(t, p)
  {
    assert ([x] + t)[1..] == t;
  }

  /** Inserting an element that does not pass `p` leaves the filtered list alone. */
  lemma {:induction false} InsertByFilterOut<T(!new)>(x: T, t: seq<T>, cmp: (T, T) -> int, p: T -> bool)
    requires !p(x)
    ensures Filter(InsertBy(x, t, cmp), p) == Filter(t, p)
    decreases |t|
  {
    if t == [] {
      FilterCons(x, [], p);
    } else if cmp(x, t[0]) <= 0 {
      FilterCons(x, t, p);
    } else {
      InsertByFilterOut(x, t[1..], cmp, p);
      FilterCons(t[0], InsertBy(x, t[1..], cmp), p);
      FilterCons(t[0], t[1..], p);
      assert t == [t[0]] + t[1..];
    }
  }

  /**
   * An element tying with `e` goes in front of every element of `t` that ties
   * with `e`: those it passes may not follow it.
   */
  lemma {:induction false} InsertByFilterTie<T(!new)>(x: T, t: seq<T>, cmp: (T, T) -> int, e: T)
    requires IsTotalPreorder(cmp) && TiesWith(cmp, e)(x)
    ensures Filter(InsertBy(x, t, cmp), TiesWith(cmp, e)) == [x] + Filter(t, TiesWith(cmp, e))
    decreases |t|
  {
    var p := TiesWith(cmp, e);
    if t == [] {
      FilterCons(x, [], p);
    } else if cmp(x, t[0]) <= 0 {
      FilterCons(x, t, p);
    } else {
      var y := t[0];
      assert cmp(x, e) <= 0;
      assert p(y) ==> cmp(e, y) <= 0 && cmp(x, y) <= 0;
      InsertByFilterTie(x, t[1..], cmp, e);
      FilterCons(t[0], InsertBy(x, t[1..], cmp), p);
      FilterCons(t[0], t[1..], p);
      assert t == [t[0]] + t[1..];
    }
  }

  /**
   * The sort is stable: the elements that tie with any `e` come out in the
   * order they went in.
   */
  lemma {:induction false} SortByStable<T(!new)>(s: seq<T>, cmp: (T, T) -> int, e: T)
    requires IsTotalPreorder(cmp)
    ensures Filter(SortBy(s, cmp), TiesWith(cmp, e)) == Filter(s, TiesWith(cmp, e))
    decreases |s|
  {
    var p := TiesWith(cmp, e);
    if s != [] {
      SortByStable(s[1..], cmp, e);
      if p(s[0]) {
        InsertByFilterTie(s[0], SortBy(s[1..], cmp), cmp, e);
      } else {
        InsertByFilterOut(s[0], SortBy(s[1..], cmp), cmp, p);
      }
      FilterCons(s[0], s[1..], p);
      assert s == [s[0]] + s[1..];
    }
  }

  /** A comparator `(a, b) => key(b) - key(a)`: larger keys first. */
  function ByKeyDescending<T(!new)>(key: T -> int): (cmp: (T, T) -> int)
    ensures forall a, b :: cmp(a, b) <= 0 <==> key(a) >= key(b)
  {
    (a: T, b: T) => key(b) - key(a)
  }

  lemma ByKeyDescendingIsTotalPreorder<T(!new)>(key: T -> int)
    ensures IsTotalPreorder(ByKeyDescending(key))
  {
  }

  /** `s.slice(0, n)`. */
  function Take<T>(s: seq<T>, n: nat): (r: seq<T>)
    ensures |r| <= n && |r| <= |s|
    ensures |s| <= n ==> r == s
    ensures n <= |s| ==> |r| == n
    ensures r == s[..|r|]
  {
    if |s| <= n then s else s[..n]
  }

  /** `s.splice(i, 1)`: `s` without its element at `i`. */
  function RemoveAt<T>(s: seq<T>, i: nat): (r: seq<T>)
    requires i < |s|
    ensures |r| == |s| - 1
    ensures r[..i] == s[..i] && r[i..] == s[i + 1..]
    ensures multiset(r) + multiset{s[i]} == multiset(s)
  {
    assert s == s[..i] + [s[i]] + s[i + 1..];
    s[..i] + s[i + 1..]
  }

  /**
   * `const i = s.findIndex(x => keyOf(x) === key); if (i > -1) s.splice(i, 1)`:
   * the first element with the key is removed; without one, nothing changes.
   */
  function DeleteFirst<T, K(==)>(s: seq<T>, key: K, keyOf: T -> K): (r: seq<T>)
    ensures (forall j :: 0 <= j < |s| ==> keyOf(s[j]) != key) ==> r == s
    ensures forall i :: IsFirst(s, i, key, keyOf) ==>
      |r| == |s| - 1 && r[..i] == s[..i] && r[i..] == s[i + 1..] &&
      multiset(r) + multiset{s[i]} == multiset(s)
  {
    var i := IndexOf(s, key, keyOf);
    if i == -1 then s
    else
      RemoveFirst(s, i, key, keyOf);
      RemoveAt(s, i)
  }

  /** Removing at the first position with a key meets what `DeleteFirst` promises of that position. */
  lemma RemoveFirst<T, K>(s: seq<T>, i: nat, key: K, keyOf: T -> K)
    requires IsFirst(s, i, key, keyOf)
    ensures forall j :: IsFirst(s, j, key, keyOf) ==>
      |RemoveAt(s, i)| == |s| - 1 && RemoveAt(s, i)[..j] == s[..j] && RemoveAt(s, i)[j..] == s[j + 1..] &&
      multiset(RemoveAt(s, i)) + multiset{s[j]} == multiset(s)
  {
    forall j | IsFirst(s, j, key, keyOf) ensures j == i { FirstIsUnique(s, i, j, key, keyOf); }
  }

  /** No two elements share a key. */
  ghost predicate UniqueKeys<T, K>(s: seq<T>, keyOf: T -> K) {
    forall i, j :: 0 <= i < j < |s| ==> keyOf(s[i]) != keyOf(s[j])
  }

  /** Appending an element whose key is new keeps the keys unique. */
  lemma AppendKeepsUnique<T, K>(s: seq<T>, x: T, keyOf: T -> K)
    requires UniqueKeys(s, keyOf)
    requires forall j :: 0 <= j < |s| ==> keyOf(s[j]) != keyOf(x)
    ensures UniqueKeys(s + [x], keyOf)
  {
    var r := s + [x];
    forall i, j | 0 <= i < j < |r| ensures keyOf(r[i]) != keyOf(r[j]) {
      assert r[i] == s[i];
      if j < |s| { assert r[j] == s[j]; }
    }
  }

  /** Replacing an element by one with the same key keeps the keys unique. */
  lemma ReplaceKeepsUnique<T, K>(s: seq<T>, i: nat, x: T, keyOf: T -> K)
    requires i < |s| && UniqueKeys(s, keyOf) && keyOf(x) == keyOf(s[i])
    ensures UniqueKeys(s[i := x], keyOf)
  {
  }

  /** Removing the first element with a key keeps the keys unique, and when they were unique none is left with that key. */
  lemma DeleteKeepsUnique<T, K>(s: seq<T>, key: K, keyOf: T -> K)
    requires UniqueKeys(s, keyOf)
    ensures UniqueKeys(DeleteFirst(s, key, keyOf), keyOf)
    ensures forall j :: 0 <= j < |DeleteFirst(s, key, keyOf)| ==> keyOf(DeleteFirst(s, key, keyOf)[j]) != key
  {
    var i := IndexOf(s, key, keyOf);
    if i >= 0 {
      RemoveAtKeepsUnique(s, i, keyOf);
    }
  }

  lemma RemoveAtKeepsUnique<T, K>(s: seq<T>, i: nat, keyOf: T -> K)
    requires i < |s| && UniqueKeys(s, keyOf)
    ensures UniqueKeys(RemoveAt(s, i), keyOf)
    ensures forall j :: 0 <= j < |RemoveAt(s, i)| ==> keyOf(RemoveAt(s, i)[j]) != keyOf(s[i])
  {
    RemoveAtShifts(s, i);
  }

  /** After `RemoveAt`, the elements before `i` stay put and those after move down by one. */
  lemma RemoveAtShifts<T>(s: seq<T>, i: nat)
    requires i < |s|
    ensures forall j :: 0 <= j < |RemoveAt(s, i)| ==> RemoveAt(s, i)[j] == if j < i then s[j] else s[j + 1]
  {
    var r := RemoveAt(s, i);
    forall j | 0 <= j < |r| ensures r[j] == if j < i then s[j] else s[j + 1] {
      if j < i { assert r[j] == r[..i][j]; } else { assert r[j] == r[i..][j - i]; }
    }
  }

  /** `s.slice(0, n)` of `s` sorted by descending key: the `n` elements with the largest keys. */
  function TopByKey<T(!new)>(s: seq<T>, key: T -> int, n: nat): (r: seq<T>)
  {
    Take(SortBy(s, ByKeyDescending(key)), n)
  }

  /** The selection holds `n` elements, or all of `s` when it has no more, taken from `s`. */
  lemma TopByKeySize<T(!new)>(s: seq<T>, key: T -> int, n: nat)
    ensures |TopByKey(s, key, n)| == if |s| <= n then |s| else n
    ensures multiset(TopByKey(s, key, n)) <= multiset(s)
  {
    var sorted := SortBy(s, ByKeyDescending(key));
    var r := TopByKey(s, key, n);
    assert sorted == r + sorted[|r|..];
  }

  /** Sorting by descending key leaves the keys not increasing. */
  lemma SortedDescending<T(!new)>(s: seq<T>, key: T -> int)
    ensures forall i, j :: 0 <= i < j < |SortBy(s, ByKeyDescending(key))| ==>
      key(SortBy(s, ByKeyDescending(key))[i]) >= key(SortBy(s, ByKeyDescending(key))[j])
  {
    ByKeyDescendingIsTotalPreorder(key);
    SortBySorted(s, ByKeyDescending(key));
  }

  /** The keys of the selection do not increase. */
  lemma TopByKeyOrdered<T(!new)>(s: seq<T>, key: T -> int, n: nat)
    ensures forall i, j :: 0 <= i < j < |TopByKey(s, key, n)| ==>
      key(TopByKey(s, key, n)[i]) >= key(TopByKey(s, key, n)[j])
  {
    var sorted := SortBy(s, ByKeyDescending(key));
    var r := TopByKey(s, key, n);
    SortedDescending(s, key);
    assert r == sorted[..|r|];
    forall i, j | 0 <= i < j < |r| ensures key(r[i]) >= key(r[j]) {
      assert r[i] == sorted[i] && r[j] == sorted[j];
    }
  }

  /** No element left out has a larger key than one selected. */
  lemma TopByKeyBest<T(!new)>(s: seq<T>, key: T -> int, n: nat)
    ensures forall x, i :: x in multiset(s) - multiset(TopByKey(s, key, n)) && 0 <= i < |TopByKey(s, key, n)| ==>
      key(x) <= key(TopByKey(s, key, n)[i])
  {
    var sorted := SortBy(s, ByKeyDescending(key));
    var r := TopByKey(s, key, n);
    SortedDescending(s, key);
    var m := |r|;
    var rest := sorted[m..];
    assert sorted == r + rest;
    assert multiset(s) - multiset(r) == multiset(rest);
    forall x, i | x in multiset(s) - multiset(r) && 0 <= i < m ensures key(x) <= key(r[i]) {
      var k :| 0 <= k < |rest| && rest[k] == x;
      assert r[i] == sorted[i] && rest[k] == sorted[m + k];
    }
  }

  /**
   * The selection holds at most `n` elements of `s`, with keys not increasing,
   * and no element left out has a larger key than one selected.
   */
  lemma TopByKeySelects<T(!new)>(s: seq<T>, key: T -> int, n: nat)
    ensures |TopByKey(s, key, n)| == if |s| <= n then |s| else n
    ensures multiset(TopByKey(s, key, n)) <= multiset(s)
    ensures forall i, j :: 0 <= i < j < |TopByKey(s, key, n)| ==>
      key(TopByKey(s, key, n)[i]) >= key(TopByKey(s, key, n)[j])
    ensures forall x, i :: x in multiset(s) - multiset(TopByKey(s, key, n)) && 0 <= i < |TopByKey(s, key, n)| ==>
      key(x) <= key(TopByKey(s, key, n)[i])
  {
    TopByKeySize(s, key, n);
    TopByKeyOrdered(s, key, n);
    TopByKeyBest(s, key, n);
  }
}
