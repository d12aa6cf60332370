/** Message identity: the printed dedup key `{table}:{id}:{row_index}` and the expansion of
    one outbox row into messages. */
module DedupKey {
  import opened Common

  // ── Decimal numerals ───────────────────────────────────────────────────

  function Digit(d: nat): (c: char)
    requires d < 10
    ensures '0' <= c <= '9' && c as int - '0' as int == d
  {
    ('0' as int + d) as char
  }

  function Digits(n: nat): (s: string)
    ensures s != "" && forall i :: 0 <= i < |s| ==> '0' <= s[i] <= '9'
  {
    if n < 10 then [Digit(n)] else Digits(n / 10) + [Digit(n % 10)]
  }

  function Decimal(n: int): string {
    if n < 0 then "-" + Digits(-n) else Digits(n)
  }

  function DigitsValue(s: string): Option<nat> {
    if s == "" then None
    else
      var c := s[|s| - 1];
      if !('0' <= c <= '9') then None
      else if |s| == 1 then Some(c as int - '0' as int)
      else
        match DigitsValue(s[..|s| - 1])
        case None => None
        case Some(high) => Some(10 * high + (c as int - '0' as int))
  }

  function DecimalValue(s: string): Option<int> {
    var negative := s != "" && s[0] == '-';
    var magnitude := DigitsValue(if negative then s[1..] else s);
    if magnitude.None? then None
    else
      var n: int := magnitude.value;
      Some(if negative then -n else n)
  }

  lemma {:induction false} DigitsRoundTrip(n: nat)
    ensures DigitsValue(Digits(n)) == Some(n)
  {
    if n >= 10 {
      DigitsRoundTrip(n / 10);
      var s := Digits(n);
      assert s[..|s| - 1] == Digits(n / 10);
    }
  }

  lemma SignedValue(digits: string, n: int)
    requires 0 <= n && DigitsValue(digits) == Some(n) && digits != "" && '0' <= digits[0]
    ensures DecimalValue(digits) == Some(n)
    ensures DecimalValue("-" + digits) == Some(-n)
  {
    assert ("-" + digits)[0] == '-' && ("-" + digits)[1..] == digits;
  }

  lemma DecimalRoundTrip(n: int)
    ensures DecimalValue(Decimal(n)) == Some(n)
  {
    var magnitude := if n < 0 then -n else n;
    DigitsRoundTrip(magnitude);
    SignedValue(Digits(magnitude), magnitude);
  }

  lemma DecimalHasNoColon(n: int)
    ensures forall i :: 0 <= i < |Decimal(n)| ==> Decimal(n)[i] != ':'
  {
    var digits := Digits(if n < 0 then -n else n);
  }

  // ── The key ────────────────────────────────────────────────────────────

  datatype Identity = Identity(table: string, outboxId: int, rowIndex: nat)

  function PrintKey(m: Identity): string {
    m.table + ":" + Decimal(m.outboxId) + ":" + Decimal(m.rowIndex)
  }

  /** Splits at the last colon. */
  function SplitLast(s: string): Option<(string, string)> {
    if s == "" then None
    else if s[|s| - 1] == ':' then Some((s[..|s| - 1], ""))
    else
      match SplitLast(s[..|s| - 1])
      case None => None
      case Some((left, right)) => Some((left, right + [s[|s| - 1]]))
  }

  lemma {:induction false} SplitLastAt(left: string, right: string)
    requires forall i :: 0 <= i < |right| ==> right[i] != ':'
    ensures SplitLast(left + ":" + right) == Some((left, right))
  {
    var s := left + ":" + right;
    if right == "" {
      assert s[..|s| - 1] == left;
    } else {
      var shorter := right[..|right| - 1];
      SplitLastAt(left, shorter);
      assert s[..|s| - 1] == left + ":" + shorter;
      assert right == shorter + [right[|right| - 1]];
    }
  }

  function ParseKey(s: string): Option<Identity> {
    match SplitLast(s)
    case None => None
    case Some((head, indexText)) =>
      match SplitLast(head)
      case None => None
      case Some((table, idText)) =>
        match (DecimalValue(idText), DecimalValue(indexText))
        case (Some(id), Some(index)) => if index < 0 then None else Some(Identity(table, id, index))
        case (_, _) => None
  }

  /** The key can be read back for every table name (colons included), id and index. */
  lemma KeyRoundTrip(m: Identity)
    ensures ParseKey(PrintKey(m)) == Some(m)
  {
    DecimalRoundTrip(m.outboxId);
    DecimalRoundTrip(m.rowIndex);
    DecimalHasNoColon(m.outboxId);
    DecimalHasNoColon(m.rowIndex);
    var head := m.table + ":" + Decimal(m.outboxId);
    assert PrintKey(m) == head + ":" + Decimal(m.rowIndex);
    SplitLastAt(head, Decimal(m.rowIndex));
    SplitLastAt(m.table, Decimal(m.outboxId));
  }

  lemma KeyInjective(a: Identity, b: Identity)
    ensures PrintKey(a) == PrintKey(b) <==> a == b
  {
    KeyRoundTrip(a);
    KeyRoundTrip(b);
  }

  // ── Expanding one outbox row ───────────────────────────────────────────

  datatype Message = Message(dedupKey: string, op: string, payload: string, isFullRefresh: bool, outboxId: int)

  datatype OutboxBatch = OutboxBatch(outboxId: int, isFullRefresh: bool, inserted: seq<string>, deleted: seq<string>)

  /** The i-th message of a batch: inserted rows first, deleted rows after them. */
  function MessageAt(b: OutboxBatch, table: string, i: nat): Message
    requires i < |b.inserted| + |b.deleted|
  {
    var key := PrintKey(Identity(table, b.outboxId, i));
    if i < |b.inserted|
    then Message(key, "insert", b.inserted[i], b.isFullRefresh, b.outboxId)
    else Message(key, "delete", b.deleted[i - |b.inserted|], false, b.outboxId)
  }

  method IntoMessages(b: OutboxBatch, table: string) returns (msgs: seq<Message>)
    ensures |msgs| == |b.inserted| + |b.deleted|
    ensures forall i :: 0 <= i < |msgs| ==> msgs[i] == MessageAt(b, table, i)
    ensures forall i :: 0 <= i < |b.inserted| ==>
              && msgs[i].op == "insert" && msgs[i].payload == b.inserted[i]
              && msgs[i].isFullRefresh == b.isFullRefresh && msgs[i].outboxId == b.outboxId
    ensures forall i :: 0 <= i < |b.deleted| ==>
              var m := msgs[|b.inserted| + i];
              m.op == "delete" && m.payload == b.deleted[i] && !m.isFullRefresh && m.outboxId == b.outboxId
    ensures forall i, j :: 0 <= i < j < |msgs| ==> msgs[i].dedupKey != msgs[j].dedupKey
  {
    hide PrintKey;
    msgs := [];
    for i := 0 to |b.inserted|
      invariant |msgs| == i
      invariant forall k :: 0 <= k < i ==> msgs[k] == MessageAt(b, table, k)
    {
      msgs := msgs + [Message(PrintKey(Identity(table, b.outboxId, i)), "insert", b.inserted[i],
                              b.isFullRefresh, b.outboxId)];
    }
    var insertedLen := |b.inserted|;
    for i := 0 to |b.deleted|
      invariant |msgs| == insertedLen + i
      invariant forall k :: 0 <= k < insertedLen + i ==> msgs[k] == MessageAt(b, table, k)
    {
      msgs := msgs + [Message(PrintKey(Identity(table, b.outboxId, insertedLen + i)), "delete",
                              b.deleted[i], false, b.outboxId)];
    }
    forall i, j | 0 <= i < j < |msgs|
      ensures msgs[i].dedupKey != msgs[j].dedupKey
    {
      KeyInjective(Identity(table, b.outboxId, i), Identity(table, b.outboxId, j));
    }
  }

  /** No two messages share a key unless they are the same row of the same outbox entry. */
  lemma KeysAcrossBatches(a: OutboxBatch, s: string, i: nat, b: OutboxBatch, t: string, j: nat)
    requires i < |a.inserted| + |a.deleted| && j < |b.inserted| + |b.deleted|
    ensures MessageAt(a, s, i).dedupKey == MessageAt(b, t, j).dedupKey
       <==> s == t && a.outboxId == b.outboxId && i == j
  {
    KeyInjective(Identity(s, a.outboxId, i), Identity(t, b.outboxId, j));
  }
}
