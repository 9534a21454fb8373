/**
 * Python's `sorted` / `list.sort`: a stable sort under a "less than or equal"
 * comparator.  Elements that compare equal keep their input order, because each
 * element is inserted before the first later element it is not greater than.
 */
module Sorting {
  import Text

  ghost predicate Transitive<T(!new)>(le: (T, T) -> bool) {
    forall a, b, c :: le(a, b) && le(b, c) ==> le(a, c)
  }

  ghost predicate TotalPreorder<T(!new)>(le: (T, T) -> bool) {
    (forall a, b :: le(a, b) || le(b, a)) && Transitive(le)
  }

  predicate SortedBy<T>(s: seq<T>, le: (T, T) -> bool) {
    forall i, j :: 0 <= i < j < |s| ==> le(s[i], s[j])
  }

  function Insert<T>(x: T, s: seq<T>, le: (T, T) -> bool): (r: seq<T>)
    ensures multiset(r) == multiset(s) + multiset{x}
    ensures |r| == |s| + 1
  {
    if s == [] then [x]
    else if le(x, s[0]) then [x] + s
    else
      assert s == [s[0]] + s[1..];
      [s[0]] + Insert(x, s[1..], le)
  }

  function SortBy<T>(s: seq<T>, le: (T, T) -> bool): (r: seq<T>)
    ensures multiset(r) == multiset(s)
    ensures |r| == |s|
  {
    if s == [] then []
    else
      assert s == [s[0]] + s[1..];
      Insert(s[0], SortBy(s[1..], le), le)
  }

  /** Sorting neither adds nor drops elements. */
  lemma SortByMember<T>(s: seq<T>, le: (T, T) -> bool, x: T)
    ensures x in SortBy(s, le) <==> x in s
  {
    assert x in SortBy(s, le) <==> x in multiset(SortBy(s, le));
    assert x in s <==> x in multiset(s);
  }

  lemma {:induction false} InsertSorted<T(!new)>(x: T, s: seq<T>, le: (T, T) -> bool)
    requires TotalPreorder(le)
    requires SortedBy(s, le)
    ensures SortedBy(Insert(x, s, le), le)
    decreases |s|
  {
    if s != [] && !le(x, s[0]) {
      InsertSorted(x, s[1..], le);
      var r := Insert(x, s, le);
      var tail := Insert(x, s[1..], le);
      assert r == [s[0]] + tail;
      forall k | 0 <= k < |tail| ensures le(s[0], tail[k]) {
        assert tail[k] in multiset(tail);
        assert tail[k] in multiset(s[1..]) + multiset{x};
        if tail[k] == x {
          assert le(s[0], x);
        } else {
          assert tail[k] in multiset(s[1..]);
          var m :| 0 <= m < |s[1..]| && s[1..][m] == tail[k];
          assert le(s[0], s[m + 1]);
        }
      }
    }
  }

  /** Under a total preorder, the output of `SortBy` is ordered; it is always a permutation of the input. */
  lemma {:induction false} SortBySorted<T(!new)>(s: seq<T>, le: (T, T) -> bool)
    requires TotalPreorder(le)
    ensures SortedBy(SortBy(s, le), le)
    decreases |s|
  {
    if s != [] {
      SortBySorted(s[1..], le);
      InsertSorted(s[0], SortBy(s[1..], le), le);
    }
  }

  /** The elements of `s` that compare equal to `x` (each `le` the other), in their order in `s`. */
  function Ties<T>(s: seq<T>, le: (T, T) -> bool, x: T): (r: seq<T>)
    ensures |r| <= |s|
  {
    if s == [] then []
    else (if le(s[0], x) && le(x, s[0]) then [s[0]] else []) + Ties(s[1..], le, x)
  }

  /** Among the elements that tie with any `x`, an inserted `y` that ties with `x` comes first. */
  lemma {:induction false} InsertTies<T(!new)>(y: T, s: seq<T>, le: (T, T) -> bool, x: T)
    requires Transitive(le)
    ensures Ties(Insert(y, s, le), le, x) == (if le(y, x) && le(x, y) then [y] else []) + Ties(s, le, x)
    decreases |s|
  {
    if s != [] && !le(y, s[0]) {
      InsertTies(y, s[1..], le, x);
      var tail := Insert(y, s[1..], le);
      var mine := if le(y, x) && le(x, y) then [y] else [];
      var head := if le(s[0], x) && le(x, s[0]) then [s[0]] else [];
      assert Insert(y, s, le) == [s[0]] + tail;
      assert ([s[0]] + tail)[1..] == tail;
      assert Ties(Insert(y, s, le), le, x) == head + Ties(tail, le, x);
      assert Ties(s, le, x) == head + Ties(s[1..], le, x);
      if mine != [] {
        SkippedNoTie(le, y, s[0], x);
        assert head == [];
      }
      Text.AppendAssoc(mine, head, Ties(s[1..], le, x));
    } else if s != [] {
      assert Insert(y, s, le) == [y] + s;
      assert ([y] + s)[1..] == s;
    }
  }

  /** An element that `y` is not `le` cannot tie with what `y` ties with. */
  lemma SkippedNoTie<T(!new)>(le: (T, T) -> bool, y: T, e: T, x: T)
    requires Transitive(le)
    requires le(y, x) && le(x, y) && !le(y, e)
    ensures !(le(e, x) && le(x, e))
  {
  }


  /**
   * `SortBy` is stable like Python's sort: the elements that compare equal to
   * any `x` come out in the order they went in.
   */
  lemma {:induction false} SortByStable<T(!new)>(s: seq<T>, le: (T, T) -> bool, x: T)
    requires TotalPreorder(le)
    ensures Ties(SortBy(s, le), le, x) == Ties(s, le, x)
    decreases |s|
  {
    if s != [] {
      SortByStable(s[1..], le, x);
      InsertTies(s[0], SortBy(s[1..], le), le, x);
    }
  }
}
