/**
 * A stable sort parameterised by a "less than or equal" relation, the model of
 * Rust's `slice::sort_by`, which is a stable sort: elements that compare equal
 * keep their original order. It is an insertion sort written as functions.
 */
module Sorting {

  /** `le` relates every two values and chains: a total preorder. */
  ghost predicate TotalPreorder<T(!new)>(le: (T, T) -> bool)
  {
    && (forall a, b :: le(a, b) || le(b, a))
    && (forall a, b, c :: le(a, b) && le(b, c) ==> le(a, c))
  }

  ghost predicate SortedBy<T>(s: seq<T>, le: (T, T) -> bool)
  {
    forall i, j :: 0 <= i < j < |s| ==> le(s[i], s[j])
  }

  /** Puts `x` in front of the first element it does not exceed, so that
      elements equal to `x` stay behind it. */
  function InsertBy<T(!new)>(x: T, s: seq<T>, le: (T, T) -> bool): (r: seq<T>)
    ensures multiset(r) == multiset(s) + multiset{x}
    ensures |r| == |s| + 1
  {
    if s == [] then [x]
    else if le(x, s[0]) then [x] + s
    else
      assert s == [s[0]] + s[1..];
      [s[0]] + InsertBy(x, s[1..], le)
  }

  function SortBy<T(!new)>(s: seq<T>, le: (T, T) -> bool): (r: seq<T>)
    ensures multiset(r) == multiset(s)
    ensures |r| == |s|
  {
    if s == [] then []
    else
      assert s == [s[0]] + s[1..];
      InsertBy(s[0], SortBy(s[1..], le), le)
  }

  lemma {:induction false} InsertBySorted<T(!new)>(x: T, s: seq<T>, le: (T, T) -> bool)
    requires TotalPreorder(le)
    requires SortedBy(s, le)
    ensures SortedBy(InsertBy(x, s, le), le)
  {
    if s == [] {
    } else if le(x, s[0]) {
      var r := [x] + s;
      forall i, j | 0 <= i < j < |r| ensures le(r[i], r[j]) {
        if i > 0 {
          assert le(s[i - 1], s[j - 1]);
        } else if j > 1 {
          assert le(s[0], s[j - 1]);
        }
      }
    } else {
      var tail := s[1..];
      assert SortedBy(tail, le) by {
        forall i, j | 0 <= i < j < |tail| ensures le(tail[i], tail[j]) {
          assert le(s[i + 1], s[j + 1]);
        }
      }
      InsertBySorted(x, tail, le);
      var t := InsertBy(x, tail, le);
      assert le(s[0], x);
      forall k | 0 <= k < |t| ensures le(s[0], t[k]) {
        assert t[k] in multiset(t);
        if t[k] != x {
          assert t[k] in multiset(tail);
          var j :| 0 <= j < |tail| && tail[j] == t[k];
          assert le(s[0], s[j + 1]);
        }
      }
      var r := [s[0]] + t;
      forall i, j | 0 <= i < j < |r| ensures le(r[i], r[j]) {
        if i > 0 {
          assert le(t[i - 1], t[j - 1]);
        } else {
          assert le(s[0], t[j - 1]);
        }
      }
    }
  }

  /** The result of `SortBy` is ordered by `le`; with the multiset
      ensures of `SortBy`, it is a sorted permutation of the input. */
  lemma {:induction false} SortBySorted<T(!new)>(s: seq<T>, le: (T, T) -> bool)
    requires TotalPreorder(le)
    ensures SortedBy(SortBy(s, le), le)
  {
    if s != [] {
      SortBySorted(s[1..], le);
      InsertBySorted(s[0], SortBy(s[1..], le), le);
    }
  }

  /** The elements of `s` that `le` ties with `e` (each is `le` the other),
      in their order in `s`. */
  function Ties<T>(s: seq<T>, e: T, le: (T, T) -> bool): seq<T>
  {
    if s == [] then []
    else (if le(s[0], e) && le(e, s[0]) then [s[0]] else []) + Ties(s[1..], e, le)
  }

  /** `x` goes in front of every element it ties with. */
  lemma {:induction false} InsertByTies<T(!new)>(x: T, s: seq<T>, e: T, le: (T, T) -> bool)
    requires TotalPreorder(le)
    ensures Ties(InsertBy(x, s, le), e, le) == (if le(x, e) && le(e, x) then [x] else []) + Ties(s, e, le)
  {
    var xs := if le(x, e) && le(e, x) then [x] else [];
    if s == [] {
      assert Ties([x], e, le) == xs + Ties([x][1..], e, le);
    } else if le(x, s[0]) {
      assert ([x] + s)[1..] == s;
      assert Ties([x] + s, e, le) == xs + Ties(s, e, le);
    } else {
      var t := InsertBy(x, s[1..], le);
      var head := if le(s[0], e) && le(e, s[0]) then [s[0]] else [];
      assert ([s[0]] + t)[1..] == t;
      assert Ties([s[0]] + t, e, le) == head + Ties(t, e, le);
      assert Ties(s, e, le) == head + Ties(s[1..], e, le);
      InsertByTies(x, s[1..], e, le);
      assert head == [] || xs == [];
      var rest := Ties(s[1..], e, le);
      if head == [] {
        assert head + (xs + rest) == xs + rest;
        assert head + rest == rest;
      } else {
        assert xs + rest == rest;
        assert xs + (head + rest) == head + rest;
      }
    }
  }

  /** `SortBy` is stable: the elements tied with any `e` keep the order
      they had in the input. */
  lemma {:induction false} SortByStable<T(!new)>(s: seq<T>, e: T, le: (T, T) -> bool)
    requires TotalPreorder(le)
    ensures Ties(SortBy(s, le), e, le) == Ties(s, e, le)
  {
    if s != [] {
      SortByStable(s[1..], e, le);
      InsertByTies(s[0], SortBy(s[1..], le), e, le);
    }
  }
}
