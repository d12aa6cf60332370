/** The shared outbox table as one relay or one sweep sees it. */
module Outbox {
  import opened Common
  import opened Ids

  datatype Row = Row(outbox: string, created: int)

  type Rows = map<int, Row>

  function IdsAfter(rows: Rows, outbox: string, after: int): set<int> {
    set i | i in rows && rows[i].outbox == outbox && after < i
  }

  /** `SELECT id … WHERE outbox_name = $1 AND id > $2 ORDER BY id LIMIT $3`. */
  function SelectAfter(rows: Rows, outbox: string, after: int, limit: nat): (ids: seq<int>)
    ensures Ascending(ids) && |ids| == Min(limit, |IdsAfter(rows, outbox, after)|)
    ensures forall i :: i in ids ==> i in rows && rows[i].outbox == outbox && after < i
    ensures forall i, j :: i in rows && rows[i].outbox == outbox && after < i && j in ids && i <= j ==> i in ids
    ensures ids == [] && limit > 0 ==> forall i :: i in rows && rows[i].outbox == outbox ==> i <= after
  {
    var all := IdsAfter(rows, outbox, after);
    var ids := FirstIds(all, limit);
    assert forall i, j :: i in rows && rows[i].outbox == outbox && after < i && j in ids && i <= j ==> i in ids by {
      assert forall i :: i in rows && rows[i].outbox == outbox && after < i ==> i in all;
    }
    assert ids == [] && limit > 0 ==> forall i :: i in rows && rows[i].outbox == outbox ==> i <= after by {
      if ids == [] && limit > 0 {
        assert |all| == 0;
        assert forall i :: i in rows && rows[i].outbox == outbox && after < i ==> i in all;
      }
    }
    ids
  }
}
