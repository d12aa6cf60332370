/** `INSERT … ON CONFLICT (key) DO NOTHING`, the statement behind both the inbox and the
    dead-letter queue. */
module Upsert {

  ghost predicate NoDup<T>(q: seq<T>) {
    forall i, j :: 0 <= i < j < |q| ==> q[i] != q[j]
  }

  function Keys<K, V>(table: seq<(K, V)>): (ks: seq<K>)
    ensures |ks| == |table|
    ensures forall i :: 0 <= i < |table| ==> ks[i] == table[i].0
  {
    seq(|table|, i requires 0 <= i < |table| => table[i].0)
  }

  /** One multi-row `INSERT … ON CONFLICT (key) DO NOTHING`: rows go in one by one,
      and a row whose key is already present (from before or from earlier in the same
      statement) is skipped. */
  function InsertIgnore<K(==), V>(table: seq<(K, V)>, batch: seq<(K, V)>): (r: seq<(K, V)>)
    decreases |batch|
  {
    if batch == [] then table
    else if batch[0].0 in Keys(table) then InsertIgnore(table, batch[1..])
    else InsertIgnore(table + [batch[0]], batch[1..])
  }

  /** The insert only appends, never duplicates a key, ends up holding every key of the
      batch, and invents no row. */
  lemma {:induction false} InsertIgnoreSpec<K, V>(table: seq<(K, V)>, batch: seq<(K, V)>)
    requires NoDup(Keys(table))
    ensures var r := InsertIgnore(table, batch);
            && table <= r
            && |r| <= |table| + |batch|
            && NoDup(Keys(r))
            && (forall i :: 0 <= i < |batch| ==> batch[i].0 in Keys(r))
            && (forall j :: |table| <= j < |r| ==> r[j] in batch)
    decreases |batch|
  {
    if batch == [] {
    } else {
      var t' := if batch[0].0 in Keys(table) then table else table + [batch[0]];
      InsertIgnoreSpec(t', batch[1..]);
      var r := InsertIgnore(t', batch[1..]);
      forall i | 0 <= i < |batch|
        ensures batch[i].0 in Keys(r)
      {
        if i == 0 {
          var j :| 0 <= j < |t'| && Keys(t')[j] == batch[0].0;
          assert r[j] == t'[j];
          assert Keys(r)[j] == batch[0].0;
        } else {
          assert batch[i] == batch[1..][i - 1];
        }
      }
    }
  }

  /** Of several rows with one key that is new to the table the first is stored. */
  lemma {:induction false} FirstWins<K, V>(table: seq<(K, V)>, batch: seq<(K, V)>, j: nat)
    requires NoDup(Keys(table)) && |table| <= j < |InsertIgnore(table, batch)|
    ensures exists i :: 0 <= i < |batch| && batch[i] == InsertIgnore(table, batch)[j]
                        && forall m :: 0 <= m < i ==> batch[m].0 != batch[i].0
    decreases |batch|
  {
    var t' := if batch[0].0 in Keys(table) then table else table + [batch[0]];
    var r := InsertIgnore(t', batch[1..]);
    InsertIgnoreSpec(t', batch[1..]);
    if j < |t'| {
      assert r[j] == t'[j] == batch[0];
    } else {
      FirstWins(t', batch[1..], j);
      var i :| 0 <= i < |batch| - 1 && batch[1..][i] == r[j]
               && forall m :: 0 <= m < i ==> batch[1..][m].0 != batch[1..][i].0;
      assert batch[0].0 != r[j].0 by {
        var p :| 0 <= p < |t'| && Keys(t')[p] == batch[0].0;
        assert r[p] == t'[p] && Keys(r)[p] == batch[0].0 && Keys(r)[j] == r[j].0;
      }
      assert batch[i + 1] == r[j];
      forall m | 0 <= m < i + 1
        ensures batch[m].0 != batch[i + 1].0
      {
        if m > 0 { assert batch[m] == batch[1..][m - 1]; }
      }
    }
  }
}
