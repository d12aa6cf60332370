/** The pipeline schema: which configurations are admitted, and what the worker reads from them. */
module PipelineSchema {
  import opened Common
  import opened Backoff
  import opened PublishLimits
  import B = CircuitBreaker

  // ── Documents ──────────────────────────────────────────────────────────

  /** A JSON value; `Other` is a fraction or an array. */
  datatype Json = Null | Bool(flag: bool) | Number(number: int) | Text(text: string) | Object(fields: Document) | Other

  type Document = map<string, Json>

  const SCHEMA_VERSION := 1

  const KEYS: set<string> := {
    "schema_version", "source_type", "source", "sink_type", "sink", "batch_size", "retry", "dlq", "wire_format"}

  /** An older `config` object stands in for a missing `sink`, and an outbox is the default source. */
  function Normalized(raw: Document): Document {
    var a := if "sink" in raw || "config" !in raw then raw
             else if raw["config"].Object? then (raw - {"config"})["sink" := raw["config"]]
             else raw - {"config"};
    var b := if "source_type" !in a && "source" in a then a["source_type" := Text("outbox")] else a;
    if "schema_version" in b then b else b["schema_version" := Number(SCHEMA_VERSION)]
  }

  function AsInteger(v: Json): Option<int> {
    if v.Number? && IsI64(v.number) then Some(v.number) else None
  }

  predicate IntegerBetween(v: Json, low: int, high: int) {
    AsInteger(v).Some? && low <= AsInteger(v).value <= high
  }

  /** The key is absent, null, or an object with no other keys than these. */
  predicate Section(d: Document, key: string, keys: set<string>) {
    key !in d || d[key].Null? || (d[key].Object? && d[key].fields.Keys <= keys)
  }

  predicate Within(d: Document, key: string, field: string, high: int) {
    key in d && d[key].Object? && field in d[key].fields ==> IntegerBetween(d[key].fields[field], 0, high)
  }

  predicate BatchSizeFits(d: Document, sinkType: string) {
    "batch_size" !in d || d["batch_size"].Null?
    || (IntegerBetween(d["batch_size"], 1, 1_000_000)
        && (DescriptorOf(sinkType).Limited? ==>
              d["batch_size"].number <= DescriptorOf(sinkType).capabilities.maxBatchSize))
  }

  /** What the schema demands of the document around the connectors' own settings. */
  predicate WellFormed(d: Document) {
    && d.Keys <= KEYS
    && "schema_version" in d && d["schema_version"] == Number(SCHEMA_VERSION)
    && "source_type" in d && d["source_type"] == Text("outbox") && "source" in d && d["source"].Object?
    && "sink_type" in d && d["sink_type"].Text? && DescriptorOf(d["sink_type"].text) != UnknownSink
    && "sink" in d && d["sink"].Object?
    && ("wire_format" in d ==> d["wire_format"] in {Null, Text("native"), Text("cloudevents")})
    && BatchSizeFits(d, d["sink_type"].text)
    && Section(d, "retry", {"max_retries", "backoff_ms"})
    && Within(d, "retry", "max_retries", 100_000) && Within(d, "retry", "backoff_ms", I64_RANGE - 1)
    && Section(d, "dlq", {"enabled", "max_retries"}) && Within(d, "dlq", "max_retries", 100_000)
    && ("dlq" in d && d["dlq"].Object? && "enabled" in d["dlq"].fields ==> d["dlq"].fields["enabled"].Bool?)
  }

  /** `connectors` says whether the settings inside `source` and `sink` are in order. */
  predicate Admits(raw: Document, connectors: bool) {
    WellFormed(Normalized(raw)) && connectors
  }

  // ── What the worker reads ──────────────────────────────────────────────

  function OptInteger(d: Document, key: string): Option<int> {
    if key in d then AsInteger(d[key]) else None
  }

  function OptFlag(d: Document, key: string): bool {
    key in d && d[key].Bool? && d[key].flag
  }

  function Or(v: Option<int>, default: int): int { if v.Some? then v.value else default }

  function PollInterval(raw: Document): (ms: int)
    ensures IsI64(ms)
  {
    Or(OptInteger(raw, "poll_interval_ms"), 1000)
  }

  function MaxBackoff(raw: Document): (ms: int)
    ensures IsI64(ms)
  {
    Or(OptInteger(raw, "max_poll_backoff_ms"), 60_000)
  }

  function DryRun(raw: Document): bool { OptFlag(raw, "dry_run") }

  function Unsigned32(d: Document, key: string, default: B.u32): B.u32 {
    if key in d && d[key].Number? && 0 <= d[key].number < U64_MAX as int + 1
    then (d[key].number % 0x1_0000_0000) as B.u32 else default
  }

  function TimeoutSeconds(d: Document): nat {
    var key := "half_open_timeout_seconds";
    if key in d && d[key].Number? && 0 <= d[key].number < U64_MAX as int + 1 then d[key].number else 30
  }

  /** The breaker's settings, with its timeout in milliseconds. */
  function BreakerConfig(raw: Document): B.Config {
    var d := if "circuit_breaker" in raw && raw["circuit_breaker"].Object? then raw["circuit_breaker"].fields else map[];
    B.Config(OptFlag(d, "enabled"), Unsigned32(d, "failure_threshold", 5), Unsigned32(d, "success_threshold", 3),
             TimeoutSeconds(d) * 1000)
  }

  function DeadLetterSection(raw: Document): Document {
    if "dlq" in raw && raw["dlq"].Object? then raw["dlq"].fields else map[]
  }

  function DeadLetters(raw: Document): bool { OptFlag(DeadLetterSection(raw), "enabled") }

  /** The retry limit, cut to 32 bits. */
  function MaxRetries(raw: Document): B.u32 { Unsigned32(DeadLetterSection(raw), "max_retries", 5) }

  // ── What is admitted ───────────────────────────────────────────────────

  lemma OnlySchemaKeys(raw: Document, connectors: bool)
    requires Admits(raw, connectors)
    ensures raw.Keys <= KEYS + {"config"} && ("config" in raw ==> "sink" !in raw)
  {
    forall key | key in raw.Keys && key != "config"
      ensures key in KEYS
    {
      assert key in Normalized(raw).Keys;
    }
  }

  /** Older documents are admitted too: what is admitted stays so without its schema version, without its source
      type, and with its `sink` called `config`. */
  lemma OlderDocumentsAdmitted(raw: Document, connectors: bool)
    requires WellFormed(raw) && connectors
    ensures Admits(raw, connectors)
    ensures Admits(raw - {"schema_version"}, connectors) && Admits(raw - {"source_type"}, connectors)
    ensures Admits((raw - {"sink"})["config" := raw["sink"]], connectors)
  {
    hide WellFormed;
    NormalizedPlain(raw);
    assert Normalized(raw - {"schema_version"}) == raw;
    assert Normalized(raw - {"source_type"}) == raw;
    assert Normalized((raw - {"sink"})["config" := raw["sink"]]) == raw;
  }

  lemma NormalizedPlain(raw: Document)
    requires WellFormed(raw)
    ensures Normalized(raw) == raw && "config" !in raw
    ensures "schema_version" in raw && raw["schema_version"] == Number(1)
    ensures "source_type" in raw && raw["source_type"] == Text("outbox") && "source" in raw
    ensures "sink" in raw && raw["sink"].Object?
  {
  }

  /** Every admitted configuration runs with the default poll interval and cap, without dry run and with a disabled
      breaker: the schema refuses the keys that would change them. */
  lemma AdmittedDefaults(raw: Document, connectors: bool)
    requires Admits(raw, connectors)
    ensures PollInterval(raw) == 1000 && MaxBackoff(raw) == 60_000 && !DryRun(raw)
    ensures BreakerConfig(raw) == B.Config(false, 5, 3, 30_000)
  {
    OnlySchemaKeys(raw, connectors);
    assert "poll_interval_ms" !in raw && "max_poll_backoff_ms" !in raw && "dry_run" !in raw && "circuit_breaker" !in raw;
  }

  /** So the backoff of an admitted pipeline never overflows and is `min(1000 * 2^n, 60000)` milliseconds. */
  lemma AdmittedBackoff(raw: Document, connectors: bool, n: nat)
    requires Admits(raw, connectors) && n >= 1
    ensures NeverOverflows(PollInterval(raw), MaxBackoff(raw))
    ensures After(PollInterval(raw), MaxBackoff(raw), n) == Min(1000 * Pow2(n), 60_000)
  {
    AdmittedDefaults(raw, connectors);
    OverflowsExactly(1000, 60_000);
    ClosedForm(1000, 60_000, n);
  }

  /** The breaker of an admitted pipeline stays closed and denies nothing, whatever the sink answers. */
  lemma {:induction false} AdmittedBreakerIdle(raw: Document, connectors: bool, log: seq<B.Attempt>)
    requires Admits(raw, connectors)
    ensures B.Replay(BreakerConfig(raw), log) == B.CLOSED
    ensures forall a :: B.PublishAttempt(BreakerConfig(raw), B.Replay(BreakerConfig(raw), log), a).1 != B.Denied
    decreases |log|
  {
    AdmittedDefaults(raw, connectors);
    if log != [] {
      AdmittedBreakerIdle(raw, connectors, log[..|log| - 1]);
    }
  }

  /** And no admitted pipeline asks its sink for a larger batch than the sink takes, unless it leaves the batch size
      to the process. */
  lemma AdmittedBatchSize(raw: Document, connectors: bool)
    requires Admits(raw, connectors) && OptInteger(raw, "batch_size").Some?
    ensures 1 <= OptInteger(raw, "batch_size").value <= 1_000_000
    ensures "sink_type" in raw && raw["sink_type"].Text?
    ensures var d := DescriptorOf(raw["sink_type"].text);
            d.Limited? ==> OptInteger(raw, "batch_size").value <= d.capabilities.maxBatchSize
  {
    assert Normalized(raw)["batch_size"] == raw["batch_size"];
  }

  /** The retry limit an admitted pipeline runs with is the one in its document, or 5: none is cut. */
  lemma AdmittedRetries(raw: Document, connectors: bool)
    requires Admits(raw, connectors)
    ensures var d := DeadLetterSection(raw);
            && MaxRetries(raw) as int == (if "max_retries" in d then d["max_retries"].number else 5)
            && MaxRetries(raw) <= 100_000
            && (DeadLetters(raw) <==> "enabled" in d && d["enabled"] == Bool(true))
  {
    if "dlq" in raw {
      assert Normalized(raw)["dlq"] == raw["dlq"];
    }
  }
}
