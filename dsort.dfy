/**
 * `allArticles.sort((a, b) => new Date(b.pubDate) - new Date(a.pubDate))`:
 * `Array.prototype.sort` is stable, so the result is the input ordered by
 * descending key with equal keys left in their input order. The reference
 * definition is an insertion sort on sequences; `key` stands for the date
 * parse of an element.
 */
module DateSort {

  /** Non-increasing keys from left to right. */
  predicate SortedDesc<T>(s: seq<T>, key: T -> int)
  {
    forall i, j :: 0 <= i < j < |s| ==> key(s[i]) >= key(s[j])
  }

  /** The elements whose key is `d`, in order. */
  function WithKey<T>(s: seq<T>, key: T -> int, d: int): (r: seq<T>)
    ensures |r| <= |s|
    ensures forall e :: e in r ==> e in s && key(e) == d
  {
    if s == [] then []
    else if key(s[0]) == d then [s[0]] + WithKey(s[1..], key, d)
    else WithKey(s[1..], key, d)
  }

  /** `x` placed in front of the first element whose key does not exceed its own. */
  function Insert<T>(x: T, t: seq<T>, key: T -> int): (r: seq<T>)
    ensures |r| == |t| + 1
    ensures multiset(r) == multiset(t) + multiset{x}
  {
    if t == [] || key(t[0]) <= key(x) then [x] + t
    else
      assert t == [t[0]] + t[1..];
      [t[0]] + Insert(x, t[1..], key)
  }

  lemma SortedTail<T>(t: seq<T>, key: T -> int)
    requires t != [] && SortedDesc(t, key)
    ensures SortedDesc(t[1..], key)
  {
    forall i, j | 0 <= i < j < |t[1..]| ensures key(t[1..][i]) >= key(t[1..][j]) {
      assert t[1..][i] == t[i + 1] && t[1..][j] == t[j + 1];
    }
  }

  /** An element in front of a sorted list whose keys it bounds keeps it sorted. */
  lemma SortedCons<T>(y: T, t: seq<T>, key: T -> int)
    requires SortedDesc(t, key)
    requires forall e :: e in t ==> key(e) <= key(y)
    ensures SortedDesc([y] + t, key)
  {
    forall i, j | 0 <= i < j < |t| + 1 ensures key(([y] + t)[i]) >= key(([y] + t)[j]) {
      assert ([y] + t)[j] == t[j - 1];
      assert t[j - 1] in t;
      if i > 0 { assert ([y] + t)[i] == t[i - 1]; }
    }
  }

  /** Insertion into a sorted list keeps it sorted. */
  lemma {:induction false} InsertSorted<T>(x: T, t: seq<T>, key: T -> int)
    requires SortedDesc(t, key)
    ensures SortedDesc(Insert(x, t, key), key)
  {
    if t == [] || key(t[0]) <= key(x) {
      forall e | e in t ensures key(e) <= key(x) {
        var k :| 0 <= k < |t| && t[k] == e;
        assert key(t[0]) >= key(t[k]) || k == 0;
      }
      SortedCons(x, t, key);
    } else {
      var rest := Insert(x, t[1..], key);
      SortedTail(t, key);
      InsertSorted(x, t[1..], key);
      forall e | e in rest ensures key(e) <= key(t[0]) {
        assert e in multiset(rest);
        if e != x {
          assert e in multiset(t[1..]);
          var k :| 0 <= k < |t[1..]| && t[1..][k] == e;
          assert t[k + 1] == e;
        }
      }
      SortedCons(t[0], rest, key);
    }
  }

  /** The stable descending sort. */
  function SortDesc<T>(s: seq<T>, key: T -> int): (r: seq<T>)
    ensures |r| == |s|
    ensures multiset(r) == multiset(s)
    ensures SortedDesc(r, key)
  {
    if s == [] then []
    else
      assert s == [s[0]] + s[1..];
      var t := SortDesc(s[1..], key);
      InsertSorted(s[0], t, key);
      Insert(s[0], t, key)
  }

  /** Inserting `x` puts it in front of every element of its own key and moves nothing else of that key. */
  lemma {:induction false} InsertWithKey<T>(x: T, t: seq<T>, key: T -> int, d: int)
    ensures WithKey(Insert(x, t, key), key, d) == if key(x) == d then [x] + WithKey(t, key, d) else WithKey(t, key, d)
  {
    if t == [] || key(t[0]) <= key(x) {
      assert Insert(x, t, key) == [x] + t;
      assert ([x] + t)[1..] == t;
    } else {
      var rest := Insert(x, t[1..], key);
      assert Insert(x, t, key) == [t[0]] + rest;
      assert ([t[0]] + rest)[1..] == rest;
      InsertWithKey(x, t[1..], key, d);
    }
  }

  /** Stability: for every key, the elements with that key keep their input order. */
  lemma {:induction false} SortDescStable<T>(s: seq<T>, key: T -> int, d: int)
    ensures WithKey(SortDesc(s, key), key, d) == WithKey(s, key, d)
  {
    if s != [] {
      SortDescStable(s[1..], key, d);
      InsertWithKey(s[0], SortDesc(s[1..], key), key, d);
    }
  }

  /** A list that is already in order is left as it is. */
  lemma {:induction false} SortDescOfSorted<T>(s: seq<T>, key: T -> int)
    requires SortedDesc(s, key)
    ensures SortDesc(s, key) == s
  {
    if s != [] {
      SortedTail(s, key);
      SortDescOfSorted(s[1..], key);
      var t := s[1..];
      assert t == [] || key(t[0]) <= key(s[0]);
    }
  }
}
