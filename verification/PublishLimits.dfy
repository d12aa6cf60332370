/** Connector size limits, checked before every publish with saturating 64-bit arithmetic. */
module PublishLimits {
  import opened Common

  newtype u64 = n: int | 0 <= n < 0x1_0000_0000_0000_0000
  const U64_MAX: u64 := 0xFFFF_FFFF_FFFF_FFFF

  datatype Capabilities = Capabilities(maxBatchSize: nat, maxBatchBytes: u64, maxMessageBytes: u64)

  /** `NoLimits` is a connector without declared capabilities. */
  datatype Descriptor = UnknownSink | NoLimits | Limited(capabilities: Capabilities)

  /** A message is represented by the length of its encoding, or by the failure to encode it. */
  type Encoding = Option<u64>

  datatype Verdict =
    | Accepted
    | UnknownSinkType
    | TooManyMessages
    | EncodingFailed
    | MessageTooLarge
    | BatchTooLarge

  function SaturatingAdd(a: u64, b: u64): u64 {
    if b <= U64_MAX - a then a + b else U64_MAX
  }

  /** The true, unbounded total. */
  function TotalBytes(messages: seq<Encoding>): nat {
    if messages == [] then 0
    else
      var last := messages[|messages| - 1];
      TotalBytes(messages[..|messages| - 1]) + (if last.Some? then last.value as nat else 0)
  }

  ghost predicate Fits(c: Capabilities, m: Encoding) {
    m.Some? && m.value <= c.maxMessageBytes
  }

  /** What the check lets through: as many messages as the connector takes, each within its size limit, and
      together within the byte limit, unless that is the largest there is. */
  ghost predicate Accepts(d: Descriptor, messages: seq<Encoding>) {
    match d
    case UnknownSink => false
    case NoLimits => true
    case Limited(c) =>
      && |messages| <= c.maxBatchSize
      && (forall i :: 0 <= i < |messages| ==> Fits(c, messages[i]))
      && (TotalBytes(messages) <= c.maxBatchBytes as nat || c.maxBatchBytes == U64_MAX)
  }

  method ValidatePublishLimits(d: Descriptor, messages: seq<Encoding>) returns (v: Verdict)
    ensures v == Accepted <==> Accepts(d, messages)
    ensures v == UnknownSinkType <==> d == UnknownSink
    ensures d.Limited? ==>
              var c := d.capabilities;
              && (v == TooManyMessages <==> |messages| > c.maxBatchSize)
              && (v in {EncodingFailed, MessageTooLarge} ==>
                    exists i :: 0 <= i < |messages| && !Fits(c, messages[i])
                                && (forall k :: 0 <= k < i ==> Fits(c, messages[k]))
                                && (v == EncodingFailed <==> messages[i] == None))
  {
    if d == UnknownSink {
      return UnknownSinkType;
    }
    if d == NoLimits {
      return Accepted;
    }
    var c := d.capabilities;
    if |messages| > c.maxBatchSize {
      return TooManyMessages;
    }
    var totalBytes: u64 := 0;
    for i := 0 to |messages|
      invariant forall k :: 0 <= k < i ==> Fits(c, messages[k])
      invariant totalBytes as int == Min(TotalBytes(messages[..i]), U64_MAX as int)
    {
      assert messages[..i + 1][..i] == messages[..i];
      if messages[i] == None {
        return EncodingFailed;
      }
      var messageBytes := messages[i].value;
      if messageBytes > c.maxMessageBytes {
        return MessageTooLarge;
      }
      totalBytes := SaturatingAdd(totalBytes, messageBytes);
    }
    assert messages[..|messages|] == messages;
    if totalBytes > c.maxBatchBytes {
      return BatchTooLarge;
    }
    return Accepted;
  }

  lemma {:induction false} TotalWithin(c: Capabilities, messages: seq<Encoding>)
    requires forall i :: 0 <= i < |messages| ==> Fits(c, messages[i])
    ensures TotalBytes(messages) <= |messages| * c.maxMessageBytes as nat
    decreases |messages|
  {
    if messages != [] {
      TotalWithin(c, messages[..|messages| - 1]);
      assert Fits(c, messages[|messages| - 1]);
      OneMore(|messages|, c.maxMessageBytes as nat);
    }
  }

  lemma OneMore(n: nat, k: nat)
    requires n >= 1
    ensures n * k == (n - 1) * k + k
  {
  }

  /** A number of messages of the largest size. */
  function Fullest(c: Capabilities, n: nat): seq<Encoding> {
    seq(n, _ => Some(c.maxMessageBytes))
  }

  lemma {:induction false} FullestTotal(c: Capabilities, n: nat)
    ensures TotalBytes(Fullest(c, n)) == n * c.maxMessageBytes as nat
  {
    if n > 0 {
      FullestTotal(c, n - 1);
      OneMore(n, c.maxMessageBytes as nat);
      assert Fullest(c, n)[..n - 1] == Fullest(c, n - 1);
    }
  }

  /** The check can let a batch through that is larger than the byte limit exactly when that limit is the largest
      64-bit value, so that the saturated sum cannot exceed it, and full batches of full messages can. */
  lemma SaturationHidesOverflowExactly(c: Capabilities)
    ensures (exists messages :: Accepts(Limited(c), messages) && TotalBytes(messages) > c.maxBatchBytes as nat)
       <==> c.maxBatchBytes == U64_MAX && c.maxBatchSize * c.maxMessageBytes as nat > U64_MAX as nat
  {
    if messages :| Accepts(Limited(c), messages) && TotalBytes(messages) > c.maxBatchBytes as nat {
      TotalWithin(c, messages);
      Product(|messages|, c.maxBatchSize, c.maxMessageBytes as nat);
    }
    if c.maxBatchBytes == U64_MAX && c.maxBatchSize * c.maxMessageBytes as nat > U64_MAX as nat {
      FullestTotal(c, c.maxBatchSize);
      assert Accepts(Limited(c), Fullest(c, c.maxBatchSize));
    }
  }

  lemma Product(a: nat, b: nat, n: nat)
    requires a <= b
    ensures a * n <= b * n
  {
  }

  // ── The connectors ─────────────────────────────────────────────────────

  const MEGABYTE: u64 := 1_048_576

  /** The limits of each sink type; the diagnostic sinks declare none. */
  function DescriptorOf(sinkType: string): Descriptor {
    if sinkType in {"stdout", "file"} then NoLimits
    else if sinkType in {"inbox", "pg_outbox"} then Limited(Capabilities(1000, 16 * MEGABYTE, MEGABYTE))
    else if sinkType in {"nats", "webhook", "kafka"} then Limited(Capabilities(100, 16 * MEGABYTE, MEGABYTE))
    else UnknownSink
  }

  /** For every connector there is, the check is exact: what it lets through is within the limits, in true sums,
      and everything within the limits is let through. */
  lemma ConnectorLimitsExact(sinkType: string, messages: seq<Encoding>)
    requires DescriptorOf(sinkType).Limited?
    ensures var c := DescriptorOf(sinkType).capabilities;
            && (Accepts(DescriptorOf(sinkType), messages) <==>
                  && |messages| <= c.maxBatchSize && TotalBytes(messages) <= c.maxBatchBytes as nat
                  && (forall i :: 0 <= i < |messages| ==> Fits(c, messages[i])))
            && c.maxBatchSize == (if sinkType in {"inbox", "pg_outbox"} then 1000 else 100)
            && c.maxMessageBytes == 1_048_576 && c.maxBatchBytes == 16_777_216
  {
  }
}
