/** Row ids in SQL order: `MIN(id)` and `ORDER BY id LIMIT n` over finite sets of ids. */
module Ids {
  import opened Common

  // ── MIN(x) over a finite, nonempty set ─────────────────────────────────

  lemma {:induction false} MinExists(s: set<int>)
    requires s != {}
    ensures exists m :: m in s && forall x :: x in s ==> m <= x
  {
    if forall x :: x !in s { assert false; }
    var e :| e in s;
    if s != {e} {
      var rest := s - {e};
      assert s == rest + {e};
      assert rest != {};
      MinExists(rest);
      var r :| r in rest && forall y :: y in rest ==> r <= y;
      var m := Min(e, r);
      assert m in s && forall y :: y in s ==> m <= y;
    } else {
      assert forall y :: y in s ==> e <= y;
    }
  }

  function MinOf(s: set<int>): (m: int)
    requires s != {}
    ensures m in s && forall x :: x in s ==> m <= x
  {
    MinExists(s);
    var m :| m in s && forall x :: x in s ==> m <= x;
    m
  }

  // ── ORDER BY id ────────────────────────────────────────────────────────

  ghost predicate Ascending(ids: seq<int>) {
    forall i, j :: 0 <= i < j < |ids| ==> ids[i] < ids[j]
  }

  /** The elements of `s` in ascending order, as `ORDER BY id` returns them. */
  function SortedIds(s: set<int>): (ids: seq<int>)
    ensures |ids| == |s|
    ensures Ascending(ids)
    ensures forall x :: x in ids <==> x in s
  {
    if s == {} then []
    else
      var m := MinOf(s);
      var rest := SortedIds(s - {m});
      assert forall x :: x in s <==> x == m || x in s - {m};
      assert forall i :: 0 <= i < |rest| ==> rest[i] in s - {m};
      [m] + rest
  }

  /** `ORDER BY id LIMIT n`. */
  function FirstIds(s: set<int>, n: nat): (ids: seq<int>)
    ensures |ids| == Min(n, |s|)
    ensures Ascending(ids)
    ensures forall x :: x in ids ==> x in s
    ensures forall x, y :: x in s && y in ids && x <= y ==> x in ids
    ensures |s| <= n ==> forall x :: x in s ==> x in ids
  {
    var all := SortedIds(s);
    var ids := all[..Min(n, |s|)];
    assert forall x, y :: x in s && y in ids && x <= y ==> x in ids by {
      forall x, y | x in s && y in ids && x <= y
        ensures x in ids
      {
        var i :| 0 <= i < |all| && all[i] == x;
        var j :| 0 <= j < |ids| && ids[j] == y;
        assert all[j] == y;
        assert i <= j;
        assert ids[i] == x;
      }
    }
    ids
  }

  /** Two ascending sequences over the same elements are the same sequence. */
  lemma {:induction false} AscendingUnique(a: seq<int>, b: seq<int>)
    requires Ascending(a) && Ascending(b)
    requires forall x :: x in a <==> x in b
    ensures a == b
  {
    assert a != [] ==> a[0] in a;
    assert b != [] ==> b[0] in b;
    if a != [] && b != [] {
      var i :| 0 <= i < |b| && b[i] == a[0];
      var j :| 0 <= j < |a| && a[j] == b[0];
      assert a[0] == b[0];
      forall x
        ensures x in a[1..] <==> x in b[1..]
      {
        if x in a[1..] { assert x in a; assert x in b; assert x != b[0]; }
        if x in b[1..] { assert x in b; assert x in a; assert x != a[0]; }
      }
      AscendingUnique(a[1..], b[1..]);
      assert a == [a[0]] + a[1..] && b == [b[0]] + b[1..];
    }
  }

  function Elems(q: seq<int>): (s: set<int>)
    ensures forall x :: x in s <==> x in q
  {
    set x | x in q
  }

  // ── Sizes and joins ────────────────────────────────────────────────────

  lemma SmallerSet<T>(a: set<T>, b: set<T>)
    requires a <= b
    ensures |a| <= |b|
  {
    assert b == a + (b - a);
  }

  lemma SubsetSize(a: set<int>, b: set<int>)
    requires a <= b && |a| == |b|
    ensures a == b
  {
    assert b == a + (b - a);
  }

  lemma {:induction false} AscendingCount(ids: seq<int>)
    requires Ascending(ids)
    ensures |Elems(ids)| == |ids|
    decreases |ids|
  {
    if ids != [] {
      var n := |ids| - 1;
      var rest := ids[..n];
      AscendingCount(rest);
      assert ids == rest + [ids[n]];
      assert Elems(ids) == Elems(rest) + {ids[n]};
    } else {
      assert Elems(ids) == {};
    }
  }

  lemma AscendingJoin(a: seq<int>, b: seq<int>, top: int)
    requires Ascending(a) && Ascending(b) && (forall x :: x in a ==> x <= top) && (forall y :: y in b ==> top < y)
    ensures Ascending(a + b)
  {
    forall i, j | 0 <= i < j < |a + b|
      ensures (a + b)[i] < (a + b)[j]
    {
      if i < |a| <= j {
        assert a[i] in a && b[j - |a|] in b;
      }
    }
  }

  lemma LastIsTop(ids: seq<int>)
    requires Ascending(ids) && ids != []
    ensures forall x :: x in ids ==> x <= ids[|ids| - 1]
  {
  }
}
