/** `Array.prototype.sort` with a comparator: a stable sort in which `a` may
    precede `b` when `cmp(a, b) <= 0`. Here the comparator is given as the
    relation `le(a, b)` ("cmp(a, b) <= 0"); the sort is an insertion sort,
    which is stable, so equal elements keep their input order. */
module Sorting {

  ghost predicate TotalPreorder<T(!new)>(le: (T, T) -> bool) {
    && (forall a, b :: le(a, b) || le(b, a))
    && (forall a, b, c :: le(a, b) && le(b, c) ==> le(a, c))
  }

  ghost predicate SortedBy<T>(s: seq<T>, le: (T, T) -> bool) {
    forall i, j :: 0 <= i < j < |s| ==> le(s[i], s[j])
  }

  /** Inserts `x` before the first element it may precede. */
  function Insert<T(!new)>(x: T, s: seq<T>, le: (T, T) -> bool): (r: seq<T>)
    ensures multiset(r) == multiset(s) + multiset{x}
    ensures TotalPreorder(le) && SortedBy(s, le) ==> SortedBy(r, le)
  {
    if s == [] then [x]
    else if le(x, s[0]) then
      assert TotalPreorder(le) && SortedBy(s, le) ==> SortedBy([x] + s, le) by {
        if TotalPreorder(le) && SortedBy(s, le) {
          ConsSorted(x, s, le);
        }
      }
      [x] + s
    else
      var rest := Insert(x, s[1..], le);
      assert s == [s[0]] + s[1..];
      assert TotalPreorder(le) && SortedBy(s, le) ==> SortedBy([s[0]] + rest, le) by {
        if TotalPreorder(le) && SortedBy(s, le) {
          assert forall k :: 0 <= k < |s[1..]| ==> s[1..][k] == s[k + 1];
          HeadPrecedes(s[0], x, s[1..], rest, le);
          ConsSorted(s[0], rest, le);
        }
      }
      [s[0]] + rest
  }

  /** A sorted sequence stays sorted with an element in front that precedes
      all of it. */
  lemma ConsSorted<T>(h: T, s: seq<T>, le: (T, T) -> bool)
    requires SortedBy(s, le)
    requires forall k :: 0 <= k < |s| ==> le(h, s[k])
    ensures SortedBy([h] + s, le)
  {
    forall i, j | 0 <= i < j < |[h] + s| ensures le(([h] + s)[i], ([h] + s)[j]) {
      assert ([h] + s)[j] == s[j - 1];
      if i > 0 {
        assert ([h] + s)[i] == s[i - 1];
      }
    }
  }

  /** An element that precedes every element of `tail` and may follow `x`
      precedes every element of `tail` with `x` inserted. */
  lemma HeadPrecedes<T(!new)>(h: T, x: T, tail: seq<T>, rest: seq<T>, le: (T, T) -> bool)
    requires TotalPreorder(le) && !le(x, h)
    requires multiset(rest) == multiset(tail) + multiset{x}
    requires forall k :: 0 <= k < |tail| ==> le(h, tail[k])
    ensures forall k :: 0 <= k < |rest| ==> le(h, rest[k])
  {
    forall k | 0 <= k < |rest| ensures le(h, rest[k]) {
      assert rest[k] in multiset(rest);
      if rest[k] != x {
        assert rest[k] in multiset(tail);
        var m :| 0 <= m < |tail| && tail[m] == rest[k];
      }
    }
  }

  /** The sorted permutation of `s`. */
  function Sort<T(!new)>(s: seq<T>, le: (T, T) -> bool): (r: seq<T>)
    ensures multiset(r) == multiset(s)
    ensures |r| == |s|
    ensures TotalPreorder(le) ==> SortedBy(r, le)
  {
    if s == [] then []
    else
      assert s == [s[0]] + s[1..];
      Insert(s[0], Sort(s[1..], le), le)
  }

  /** The relation of a comparator `(a, b) => key(b) - key(a)` (descending). */
  function ByKeyDesc<T>(key: T -> real): (T, T) -> bool {
    (a: T, b: T) => key(a) >= key(b)
  }

  /** The relation of a comparator `(a, b) => key(a) - key(b)` (ascending). */
  function ByKeyAsc<T>(key: T -> real): (T, T) -> bool {
    (a: T, b: T) => key(a) <= key(b)
  }

  lemma KeyOrdersArePreorders<T(!new)>(key: T -> real)
    ensures TotalPreorder(ByKeyDesc(key)) && TotalPreorder(ByKeyAsc(key))
  {
  }

  /** Sorting by a key, descending: the result is a permutation of the
      input whose keys never increase. */
  lemma SortByKeyDesc<T(!new)>(s: seq<T>, key: T -> real)
    ensures multiset(Sort(s, ByKeyDesc(key))) == multiset(s)
    ensures forall i, j :: 0 <= i < j < |s| ==>
              key(Sort(s, ByKeyDesc(key))[i]) >= key(Sort(s, ByKeyDesc(key))[j])
  {
    KeyOrdersArePreorders(key);
  }

  /** Sorting by a key, ascending. */
  lemma SortByKeyAsc<T(!new)>(s: seq<T>, key: T -> real)
    ensures multiset(Sort(s, ByKeyAsc(key))) == multiset(s)
    ensures forall i, j :: 0 <= i < j < |s| ==>
              key(Sort(s, ByKeyAsc(key))[i]) <= key(Sort(s, ByKeyAsc(key))[j])
  {
    KeyOrdersArePreorders(key);
  }

  ghost predicate Distinct<T>(s: seq<T>) {
    forall i, j :: 0 <= i < j < |s| ==> s[i] != s[j]
  }

  lemma {:induction false} DistinctCountsAtMostOne<T>(s: seq<T>)
    requires Distinct(s)
    ensures forall x :: multiset(s)[x] <= 1
  {
    if s != [] {
      DistinctCountsAtMostOne(s[1..]);
      assert s == [s[0]] + s[1..];
      assert s[0] !in s[1..];
    }
  }

  lemma CountsAtMostOneDistinct<T>(s: seq<T>)
    requires forall x :: multiset(s)[x] <= 1
    ensures Distinct(s)
  {
    forall i, j | 0 <= i < j < |s|
      ensures s[i] != s[j]
    {
      assert s == s[..j] + s[j..];
      assert s[j..][0] == s[j];
      assert multiset(s)[s[j]] == multiset(s[..j])[s[j]] + multiset(s[j..])[s[j]];
      assert s[j] !in multiset(s[..j]);
      assert s[..j][i] == s[i];
    }
  }

  /** A permutation of a sequence without repetitions has none either. */
  lemma DistinctPermutation<T>(a: seq<T>, b: seq<T>)
    requires multiset(a) == multiset(b) && Distinct(a)
    ensures Distinct(b)
  {
    DistinctCountsAtMostOne(a);
    CountsAtMostOneDistinct(b);
  }
}
