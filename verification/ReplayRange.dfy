/** The range of ids a bounded replay covers, and its filter. */
module ReplayRange {
  import opened Ids

  datatype Range = Range(from: int, to: int)

  /** The replay filter keeps the order. */
  function InRange(ids: seq<int>, r: Range): seq<int> {
    if ids == [] then []
    else
      var n := |ids| - 1;
      InRange(ids[..n], r) + (if r.from <= ids[n] <= r.to then [ids[n]] else [])
  }

  lemma {:induction false} FilterSpec(ids: seq<int>, r: Range)
    requires Ascending(ids)
    ensures Ascending(InRange(ids, r))
    ensures forall x :: x in InRange(ids, r) <==> x in ids && r.from <= x <= r.to
    decreases |ids|
  {
    if ids != [] {
      var n := |ids| - 1;
      FilterSpec(ids[..n], r);
      var kept := InRange(ids[..n], r);
      assert ids == ids[..n] + [ids[n]];
      forall x | x in kept
        ensures x <= ids[n] - 1
      {
        assert x in ids[..n];
      }
      AscendingJoin(kept, [ids[n]], ids[n] - 1);
    }
  }
}
