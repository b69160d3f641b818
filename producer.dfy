// The producer service's Kafka producer: events are queued on a bounded channel, gathered into
// batches of `batchSize`, handed over a bounded batch channel to a sender, and written with retries.
module Producer {
  import opened Wrappers
  import opened Numbers
  import opened Retry
  import opened Broker
  import opened Seqs

  /**
   * The producer service's event. Its `Validate` and `ToJSON` belong to the producer's domain
   * package, which is not part of this model: the producer receives them as functions.
   */
  datatype Event = Event(id: string, eventType: string, data: string, timestamp: int, version: string, source: string)

  /** The two producer counters kept here: published events, and failed events with their reason label. */
  datatype Metric = Published(eventType: string) | Failed(eventType: string, reason: string)

  datatype KafkaConfig = KafkaConfig(brokers: seq<string>, topic: string, batchSize: int, maxRetries: int, retryBackoff: int, compressionType: string)

  datatype Compression = Uncompressed | Gzip | Snappy | Lz4 | Zstd

  const DefaultBatchSize := 100
  const BatchQueueCapacity := 10

  function CodecName(c: Compression): string {
    match c
    case Uncompressed => "none"
    case Gzip => "gzip"
    case Snappy => "snappy"
    case Lz4 => "lz4"
    case Zstd => "zstd"
  }

  /** The writer's codec for a configured name; every other name means no compression. */
  function CompressionFor(name: string): (c: Compression)
    ensures c != Uncompressed ==> CodecName(c) == name
    ensures c == Uncompressed <==> name !in {"gzip", "snappy", "lz4", "zstd"}
  {
    if name == "gzip" then Gzip
    else if name == "snappy" then Snappy
    else if name == "lz4" then Lz4
    else if name == "zstd" then Zstd
    else Uncompressed
  }

  /** The batch size the producer works with: a positive configured size, otherwise 100. */
  function EffectiveBatchSize(configured: int): (n: int)
    ensures n >= 1
    ensures configured >= 1 ==> n == configured
    ensures configured < 1 ==> n == DefaultBatchSize
  {
    if configured <= 0 then DefaultBatchSize else configured
  }

  /** NewProducer's checks: brokers, then topic; on success the effective batch size. */
  function CheckConfig(cfg: KafkaConfig): (r: Result<int, string>)
    ensures r.Ok? <==> |cfg.brokers| > 0 && cfg.topic != ""
    ensures |cfg.brokers| == 0 ==> r == Err("kafka brokers not configured")
    ensures |cfg.brokers| > 0 && cfg.topic == "" ==> r == Err("kafka topic not configured")
    ensures r.Ok? ==> r.value >= 1 && (cfg.batchSize >= 1 ==> r.value == cfg.batchSize)
  {
    if |cfg.brokers| == 0 then Err("kafka brokers not configured")
    else if cfg.topic == "" then Err("kafka topic not configured")
    else Ok(EffectiveBatchSize(cfg.batchSize))
  }

  /** The message written for an event: keyed by its id, with four descriptive headers. */
  function MessageFor(e: Event, payload: seq<byte>): Message {
    Message(e.id, payload, e.timestamp, Some([
      Header("event-type", e.eventType), Header("event-id", e.id),
      Header("event-version", e.version), Header("event-source", e.source)]))
  }

  /** sendBatch turns an event into a message when it validates and serialises. */
  predicate Accepted(e: Event, valid: Event -> bool, toJson: Event -> Option<seq<byte>>) {
    valid(e) && toJson(e).Some?
  }

  /** The messages sendBatch builds from a batch, in batch order. */
  function Encoded(events: seq<Event>, valid: Event -> bool, toJson: Event -> Option<seq<byte>>): (ms: seq<Message>)
    ensures |ms| <= |events|
  {
    if events == [] then []
    else
      var e := events[|events| - 1];
      Encoded(events[..|events| - 1], valid, toJson)
        + (if Accepted(e, valid, toJson) then [MessageFor(e, toJson(e).value)] else [])
  }

  /** The failure counters sendBatch bumps while building messages, in batch order. */
  function Rejections(events: seq<Event>, valid: Event -> bool, toJson: Event -> Option<seq<byte>>): seq<Metric> {
    if events == [] then []
    else
      var e := events[|events| - 1];
      Rejections(events[..|events| - 1], valid, toJson)
        + (if !valid(e) then [Failed(e.eventType, "validation_error")]
           else if toJson(e).None? then [Failed(e.eventType, "serialization_error")]
           else [])
  }

  /** One Published metric per event, in order. */
  function PublishedAll(events: seq<Event>): seq<Metric>
  {
    seq(|events|, i requires 0 <= i < |events| => Published(events[i].eventType))
  }

  /** One Failed metric with the given reason per event, in order. */
  function FailedAll(events: seq<Event>, reason: string): seq<Metric>
  {
    seq(|events|, i requires 0 <= i < |events| => Failed(events[i].eventType, reason))
  }

  /** Building messages distributes over concatenation: batches keep their order. */
  lemma {:induction false} EncodedAppend(a: seq<Event>, b: seq<Event>, valid: Event -> bool, toJson: Event -> Option<seq<byte>>)
    ensures Encoded(a + b, valid, toJson) == Encoded(a, valid, toJson) + Encoded(b, valid, toJson)
    decreases |b|
  {
    if b == [] {
      assert a + b == a;
    } else {
      assert (a + b)[..|a + b| - 1] == a + b[..|b| - 1];
      EncodedAppend(a, b[..|b| - 1], valid, toJson);
    }
  }

  /** A batch of accepted events becomes one message per event, in the same order. */
  lemma {:induction false} EncodedAllAccepted(events: seq<Event>, valid: Event -> bool, toJson: Event -> Option<seq<byte>>)
    requires forall i :: 0 <= i < |events| ==> valid(events[i]) && toJson(events[i]).Some?
    ensures |Encoded(events, valid, toJson)| == |events|
    ensures forall i :: 0 <= i < |events| ==> Encoded(events, valid, toJson)[i] == MessageFor(events[i], toJson(events[i]).value)
    decreases |events|
  {
    if events != [] {
      EncodedAllAccepted(events[..|events| - 1], valid, toJson);
    }
  }

  /** No message is built exactly when no event of the batch is accepted. */
  lemma {:induction false} EncodedEmpty(events: seq<Event>, valid: Event -> bool, toJson: Event -> Option<seq<byte>>)
    ensures Encoded(events, valid, toJson) == [] <==> forall i :: 0 <= i < |events| ==> !Accepted(events[i], valid, toJson)
    decreases |events|
  {
    if events != [] {
      EncodedEmpty(events[..|events| - 1], valid, toJson);
      var last := events[|events| - 1];
      if Accepted(last, valid, toJson) {
        assert !(forall i :: 0 <= i < |events| ==> !Accepted(events[i], valid, toJson)) by {
          assert Accepted(events[|events| - 1], valid, toJson);
        }
      } else {
        assert forall i :: 0 <= i < |events| - 1 ==> events[..|events| - 1][i] == events[i];
      }
    }
  }

  /** Every message is keyed by the id it carries in its event-id header, and comes from an accepted event. */
  lemma {:induction false} EncodedMessagesKeyed(events: seq<Event>, valid: Event -> bool, toJson: Event -> Option<seq<byte>>)
    ensures forall m :: m in Encoded(events, valid, toJson) ==>
      m.headers.Some? && |m.headers.value| == 4 && m.headers.value[1] == Header("event-id", m.key)
      && exists e :: e in events && Accepted(e, valid, toJson) && m == MessageFor(e, toJson(e).value)
    decreases |events|
  {
    if events != [] {
      EncodedMessagesKeyed(events[..|events| - 1], valid, toJson);
      forall m | m in Encoded(events, valid, toJson)
        ensures exists e :: e in events && Accepted(e, valid, toJson) && m == MessageFor(e, toJson(e).value)
      {
        if m in Encoded(events[..|events| - 1], valid, toJson) {
          var e :| e in events[..|events| - 1] && Accepted(e, valid, toJson) && m == MessageFor(e, toJson(e).value);
          assert e in events;
        } else {
          assert events[|events| - 1] in events;
        }
      }
    }
  }

  /** The message-building loop of sendBatch. */
  method BuildMessages(events: seq<Event>, valid: Event -> bool, toJson: Event -> Option<seq<byte>>)
    returns (messages: seq<Message>, failures: seq<Metric>)
    ensures messages == Encoded(events, valid, toJson)
    ensures failures == Rejections(events, valid, toJson)
  {
    messages := [];
    failures := [];
    var i := 0;
    while i < |events|
      invariant 0 <= i <= |events|
      invariant messages == Encoded(events[..i], valid, toJson)
      invariant failures == Rejections(events[..i], valid, toJson)
    {
      var e := events[i];
      assert events[..i + 1][..i] == events[..i];
      if !valid(e) {
        failures := failures + [Failed(e.eventType, "validation_error")];
      } else if toJson(e).None? {
        failures := failures + [Failed(e.eventType, "serialization_error")];
      } else {
        messages := messages + [MessageFor(e, toJson(e).value)];
      }
      i := i + 1;
    }
    assert events[..i] == events;
  }

  function RetryError(what: string, maxRetries: int): string {
    "failed to publish " + what + "after " + FormatInt(maxRetries + 1) + " attempts"
  }

  /**
   * publishWithRetry and publishBatchWithRetry: up to MaxRetries + 1 writes, waiting
   * `attempt * backoff` before each retry; the writer's call number `firstWrite + k`
   * succeeds exactly when broker(firstWrite + k).
   */
  method WriteWithRetry(broker: nat -> bool, firstWrite: nat, maxRetries: int, backoff: int) returns (run: Run, waits: seq<int>)
    ensures run == FirstSuccess(Shifted(broker, firstWrite), 0, MaxAttempts(maxRetries))
    ensures waits == LinearWaits(run.attempts, backoff)
  {
    var ok := Shifted(broker, firstWrite);
    var limit := MaxAttempts(maxRetries);
    waits := [];
    var attempt := 0;
    while attempt <= maxRetries
      invariant 0 <= attempt <= limit
      invariant FirstSuccess(ok, attempt, limit) == FirstSuccess(ok, 0, limit)
      invariant waits == LinearWaits(attempt, backoff)
    {
      if attempt > 0 {
        waits := waits + [attempt * backoff];
      }
      FirstSuccessStep(broker, firstWrite, attempt, limit);
      if broker(firstWrite + attempt) {
        return Run(attempt + 1, true), waits;
      }
      attempt := attempt + 1;
    }
    run := Run(limit, false);
  }

  /** The collector's view of batching: the batch being filled, the batch channel, and dropped batches. */
  datatype Batching = Batching(current: seq<Event>, queue: seq<seq<Event>>, dropped: seq<seq<Event>>)

  /** flushCurrentBatch: nothing for an empty batch; otherwise the batch goes to the channel, or is dropped when the channel is full. */
  function Flush(b: Batching): (r: Batching)
    ensures r.current == []
  {
    if b.current == [] then b
    else if |b.queue| < BatchQueueCapacity then Batching([], b.queue + [b.current], b.dropped)
    else Batching([], b.queue, b.dropped + [b.current])
  }

  /** The collector receiving one event: append it, and flush once the batch holds `size` events. */
  function Collect(size: int, b: Batching, e: Event): (r: Batching)
    ensures |r.current| <= |b.current| + 1
  {
    var grown := b.current + [e];
    if |grown| >= size then Flush(b.(current := grown)) else b.(current := grown)
  }

  /** The collector receiving a whole stream of events, one at a time. */
  function CollectAll(size: int, b: Batching, events: seq<Event>): Batching {
    if events == [] then b else Collect(size, CollectAll(size, b, events[..|events| - 1]), events[|events| - 1])
  }

  /** A collected batch never reaches the batch size: reaching it flushes. */
  lemma CollectKeepsBelowSize(size: int, b: Batching, e: Event)
    requires size >= 1 && |b.current| < size
    ensures |Collect(size, b, e).current| < size
  {
  }

  /** Collecting a stream in two parts is collecting it whole. */
  lemma {:induction false} CollectAllAppend(size: int, b: Batching, x: seq<Event>, y: seq<Event>)
    ensures CollectAll(size, b, x + y) == CollectAll(size, CollectAll(size, b, x), y)
    decreases |y|
  {
    if y == [] {
      assert x + y == x;
    } else {
      assert (x + y)[..|x + y| - 1] == x + y[..|y| - 1];
      CollectAllAppend(size, b, x, y[..|y| - 1]);
    }
  }

  /** Events that do not fill the batch just join it. */
  lemma {:induction false} CollectBelowSize(size: int, b: Batching, c: seq<Event>)
    requires |b.current| + |c| < size
    ensures CollectAll(size, b, c) == b.(current := b.current + c)
    decreases |c|
  {
    if c == [] {
      assert b.current + c == b.current;
    } else {
      CollectBelowSize(size, b, c[..|c| - 1]);
      assert b.current + c[..|c| - 1] + [c[|c| - 1]] == b.current + c;
    }
  }

  /** With the batch channel empty, one collected event ends up, in order, in what is queued or still pending. */
  lemma CollectFromEmptyQueue(size: int, b: Batching, e: Event)
    requires b.queue == []
    ensures Collect(size, b, e).dropped == b.dropped
    ensures Flatten(Collect(size, b, e).queue) + Collect(size, b, e).current == b.current + [e]
  {
    FlattenFlushed(b.current + [e]);
  }

  /** `size` events collected into an empty batch go to the batch channel as one batch, when it has room. */
  lemma CollectOneBatch(size: int, b: Batching, c: seq<Event>)
    requires size >= 1 && b.current == [] && |c| == size && |b.queue| < BatchQueueCapacity
    ensures CollectAll(size, b, c) == Batching([], b.queue + [c], b.dropped)
  {
    CollectBelowSize(size, b, c[..|c| - 1]);
    assert b.current + c[..|c| - 1] + [c[|c| - 1]] == c;
    assert CollectAll(size, b, c) == Collect(size, b.(current := c[..|c| - 1]), c[|c| - 1]);
  }

  /**
   * Batching loses and reorders nothing: full batches of `size` events followed by fewer than
   * `size` more, collected into an empty batch, put exactly those batches on the channel (while
   * it has room for them) and leave the rest in the current batch.
   */
  lemma {:induction false} CollectAllChunks(size: int, b: Batching, chunks: seq<seq<Event>>, rest: seq<Event>)
    requires size >= 1 && b.current == []
    requires forall i :: 0 <= i < |chunks| ==> |chunks[i]| == size
    requires |rest| < size && |b.queue| + |chunks| <= BatchQueueCapacity
    ensures CollectAll(size, b, Flatten(chunks) + rest) == Batching(rest, b.queue + chunks, b.dropped)
    decreases |chunks|
  {
    if chunks == [] {
      assert Flatten(chunks) + rest == rest;
      CollectBelowSize(size, b, rest);
    } else {
      var init := chunks[..|chunks| - 1];
      var last := chunks[|chunks| - 1];
      CollectAllChunks(size, b, init, []);
      assert Flatten(init) + [] == Flatten(init);
      var mid := Batching([], b.queue + init, b.dropped);
      CollectOneBatch(size, mid, last);
      CollectAllAppend(size, b, Flatten(init), last);
      CollectAllAppend(size, b, Flatten(chunks), rest);
      CollectBelowSize(size, Batching([], b.queue + chunks, b.dropped), rest);
      assert init + [last] == chunks;
      ConcatAssoc(b.queue, init, [last]);
    }
  }

  /** The Kafka producer, its channels and what it has done with the broker and its counters. */
  /** What the producer has done to the broker and its counters: writes made, message lists delivered, metrics. */
  datatype Output = Output(writes: nat, delivered: seq<seq<Message>>, metrics: seq<Metric>)

  class Producer {
    const topic: string
    const batchSize: int
    const maxRetries: int
    const retryBackoff: int
    const compression: Compression
    /** The domain package's event.Validate() and event.ToJSON(). */
    const valid: Event -> bool
    const toJson: Event -> Option<seq<byte>>
    /** Whether the writer's WriteMessages call number n succeeds. */
    const broker: nat -> bool
    /** Whether writer.Close() succeeds. */
    const writerCloses: bool

    var closed: bool
    var started: bool
    /** The buffered event channel, capacity 2 * batchSize. */
    var eventQueue: seq<Event>
    var currentBatch: seq<Event>
    /** The buffered batch channel, capacity 10. */
    var batchQueue: seq<seq<Event>>
    /** Batches whose result channel reported "batch channel full". */
    var dropped: seq<seq<Event>>
    /** Batches the batch sender has handed to sendBatch, in order. */
    var sent: seq<seq<Event>>
    /** WriteMessages calls made so far. */
    var writes: nat
    /** The message lists of the writes that succeeded, in order. */
    var delivered: seq<seq<Message>>
    var metrics: seq<Metric>

    /** The channel capacities hold. */
    ghost predicate Bounded()
      reads this
    {
      batchSize >= 1 && |currentBatch| <= batchSize && |eventQueue| <= 2 * batchSize && |batchQueue| <= BatchQueueCapacity
    }

    /** Between collector steps the current batch is below the batch size. */
    ghost predicate Valid()
      reads this
    {
      Bounded() && |currentBatch| < batchSize
    }

    ghost predicate Pristine()
      reads this
    {
      !closed && !started && eventQueue == [] && currentBatch == [] && batchQueue == [] && dropped == []
      && sent == [] && writes == 0 && delivered == [] && metrics == []
    }

    function Batches(): Batching
      reads this
    {
      Batching(currentBatch, batchQueue, dropped)
    }

    constructor (cfg: KafkaConfig, size: int, valid: Event -> bool, toJson: Event -> Option<seq<byte>>, broker: nat -> bool, writerCloses: bool)
      requires size >= 1
      ensures Valid() && Pristine()
      ensures topic == cfg.topic && batchSize == size && maxRetries == cfg.maxRetries && retryBackoff == cfg.retryBackoff
      ensures compression == CompressionFor(cfg.compressionType)
      ensures this.valid == valid && this.toJson == toJson && this.broker == broker && this.writerCloses == writerCloses
    {
      topic := cfg.topic;
      batchSize := size;
      maxRetries := cfg.maxRetries;
      retryBackoff := cfg.retryBackoff;
      compression := CompressionFor(cfg.compressionType);
      this.valid := valid;
      this.toJson := toJson;
      this.broker := broker;
      this.writerCloses := writerCloses;
      closed := false;
      started := false;
      eventQueue := [];
      currentBatch := [];
      batchQueue := [];
      dropped := [];
      sent := [];
      writes := 0;
      delivered := [];
      metrics := [];
    }

    /** Start: refused once closed; otherwise the collector and the sender run. */
    method Start() returns (err: Option<string>)
      modifies this`started
      ensures closed ==> err == Some("producer is closed") && started == old(started)
      ensures !closed ==> err == None && started
    {
      if closed {
        return Some("producer is closed");
      }
      started := true;
      err := None;
    }

    /** flushCurrentBatch. */
    method FlushCurrentBatch() returns (outcome: Batching)
      requires Bounded()
      modifies this`currentBatch, this`batchQueue, this`dropped
      ensures Valid()
      ensures Batches() == Flush(old(Batches())) && outcome == Batches()
    {
      if currentBatch == [] {
        return Batches();
      }
      var batch := currentBatch;
      currentBatch := [];
      if |batchQueue| < BatchQueueCapacity {
        batchQueue := batchQueue + [batch];
      } else {
        dropped := dropped + [batch];
      }
      outcome := Batches();
    }

    /** The collector receiving one event from the event channel. */
    method CollectEvent(e: Event)
      requires Valid()
      modifies this`currentBatch, this`batchQueue, this`dropped
      ensures Valid()
      ensures Batches() == Collect(batchSize, old(Batches()), e)
    {
      currentBatch := currentBatch + [e];
      var shouldFlush := |currentBatch| >= batchSize;
      if shouldFlush {
        var _ := FlushCurrentBatch();
      }
    }

    /** One turn of the running collector: take the oldest queued event, if any. */
    method CollectorStep() returns (received: bool)
      requires Valid()
      modifies this`eventQueue, this`currentBatch, this`batchQueue, this`dropped
      ensures Valid()
      ensures received <==> old(started) && !old(closed) && old(eventQueue) != []
      ensures !received ==> unchanged(this)
      ensures received ==> eventQueue == old(eventQueue)[1..] && Batches() == Collect(batchSize, old(Batches()), old(eventQueue)[0])
    {
      if !started || closed || eventQueue == [] {
        return false;
      }
      var e := eventQueue[0];
      eventQueue := eventQueue[1..];
      CollectEvent(e);
      received := true;
    }

    /** The collector's flush ticker firing. */
    method TimerTick()
      requires Valid()
      modifies this`currentBatch, this`batchQueue, this`dropped
      ensures Valid()
      ensures (!started || closed) ==> unchanged(this)
      ensures started && !closed ==> Batches() == Flush(old(Batches()))
    {
      if started && !closed {
        var _ := FlushCurrentBatch();
      }
    }

    twostate predicate Wrote(run: Run, messages: seq<Message>)
      reads this
    {
      run == FirstSuccess(Shifted(broker, old(writes)), 0, MaxAttempts(maxRetries))
      && writes == old(writes) + run.attempts
      && delivered == old(delivered) + (if run.succeeded then [messages] else [])
    }

    /**
     * What publishSync does for one event: an event that does not serialise is counted as a
     * serialization error and sent nowhere; otherwise its message is written with retries and
     * counted as published, or as a publish error reported to the caller.
     */
    twostate predicate SyncPublished(e: Event, new err: Option<string>)
      reads this
    {
      if toJson(e).None? then
        err == Some("failed to marshal event")
        && metrics == old(metrics) + [Failed(e.eventType, "serialization_error")]
        && writes == old(writes) && delivered == old(delivered)
      else
        var run := FirstSuccess(Shifted(broker, old(writes)), 0, MaxAttempts(maxRetries));
        Wrote(run, [MessageFor(e, toJson(e).value)])
        && metrics == old(metrics) + [if run.succeeded then Published(e.eventType) else Failed(e.eventType, "publish_error")]
        && err == (if run.succeeded then None else Some("failed to publish event: " + RetryError("", maxRetries)))
    }

    function Written(): Output
      reads this
    {
      Output(writes, delivered, metrics)
    }

    /**
     * What sendBatch does to the broker and the counters for one batch, from `o`: an empty batch
     * does nothing; a batch with no surviving message only counts its rejections; otherwise the
     * messages are written with retries, delivered on success, and every event of the batch is
     * counted as published or as a publish error after the rejections.
     */
    function SendOne(events: seq<Event>, o: Output): Output {
      var ms := Encoded(events, valid, toJson);
      if events == [] then o
      else if ms == [] then o.(metrics := o.metrics + Rejections(events, valid, toJson))
      else
        var run := FirstSuccess(Shifted(broker, o.writes), 0, MaxAttempts(maxRetries));
        Output(o.writes + run.attempts, o.delivered + (if run.succeeded then [ms] else []),
          o.metrics + Rejections(events, valid, toJson)
          + (if run.succeeded then PublishedAll(events) else FailedAll(events, "publish_error")))
    }

    /** The error sendBatch returns for one batch, when the writer's call counter starts at `w`. */
    function SendError(events: seq<Event>, w: nat): Option<string> {
      if events == [] || Encoded(events, valid, toJson) == [] then
        (if events == [] then None else Some("no valid messages to send"))
      else if FirstSuccess(Shifted(broker, w), 0, MaxAttempts(maxRetries)).succeeded then None
      else Some(RetryError("batch ", maxRetries))
    }

    /** The batch sender handing each batch to sendBatch, one after the other. */
    function SendAll(batches: seq<seq<Event>>, o: Output): Output
      decreases |batches|
    {
      if batches == [] then o else SendAll(batches[1..], SendOne(batches[0], o))
    }

    /** Sending a non-empty run is sending its first batch, then the rest. */
    lemma SendAllHead(batches: seq<seq<Event>>, o: Output)
      requires batches != []
      ensures SendAll(batches, o) == SendAll(batches[1..], SendOne(batches[0], o))
    {
    }

    /** Sending only adds: writes grow, and the delivered lists and the metrics are extended, never rewritten. */
    lemma {:induction false} SendAllExtends(batches: seq<seq<Event>>, o: Output)
      ensures o.writes <= SendAll(batches, o).writes
      ensures |o.delivered| <= |SendAll(batches, o).delivered| && SendAll(batches, o).delivered[..|o.delivered|] == o.delivered
      ensures |o.metrics| <= |SendAll(batches, o).metrics| && SendAll(batches, o).metrics[..|o.metrics|] == o.metrics
      decreases |batches|
    {
      if batches != [] {
        var o1 := SendOne(batches[0], o);
        SendAllExtends(batches[1..], o1);
        var r := SendAll(batches[1..], o1);
        assert o.delivered <= o1.delivered && o.metrics <= o1.metrics;
        assert o1.delivered <= r.delivered && o1.metrics <= r.metrics;
      }
    }

    /** Sending two runs of batches is sending their concatenation. */
    lemma {:induction false} SendAllAppend(a: seq<seq<Event>>, b: seq<seq<Event>>, o: Output)
      ensures SendAll(a + b, o) == SendAll(b, SendAll(a, o))
      decreases |a|
    {
      if a != [] {
        assert (a + b)[0] == a[0] && (a + b)[1..] == a[1..] + b;
        SendAllAppend(a[1..], b, SendOne(a[0], o));
      } else {
        assert a + b == b;
      }
    }

    /** With a writer whose every call succeeds, each batch with a message takes exactly one write. */
    lemma AlwaysFirstWrite(w: nat)
      requires maxRetries >= 0 && forall k :: broker(k)
      ensures FirstSuccess(Shifted(broker, w), 0, MaxAttempts(maxRetries)) == Run(1, true)
    {
      assert Shifted(broker, w)(0) == broker(w);
    }

    /**
     * With a writer whose every call succeeds, sending a run of batches delivers exactly the
     * messages of all their events, in order, one write per delivered batch.
     */
    /** With a writer whose every call succeeds, one batch delivers its messages in one write, if it has any. */
    lemma SendOneDelivers(b: seq<Event>, o: Output)
      requires maxRetries >= 0 && forall k :: broker(k)
      ensures Encoded(b, valid, toJson) == [] ==> SendOne(b, o).delivered == o.delivered && SendOne(b, o).writes == o.writes
      ensures Encoded(b, valid, toJson) != [] ==>
        SendOne(b, o).delivered == o.delivered + [Encoded(b, valid, toJson)] && SendOne(b, o).writes == o.writes + 1
    {
      if b != [] && Encoded(b, valid, toJson) != [] {
        AlwaysFirstWrite(o.writes);
      }
    }

    /**
     * With a writer whose every call succeeds, sending a run of batches delivers exactly the
     * messages of all their events, in order, one write per delivered batch.
     */
    lemma {:induction false} SendAllDeliversEncoded(batches: seq<seq<Event>>, o: Output)
      requires maxRetries >= 0 && forall k :: broker(k)
      ensures |o.delivered| <= |SendAll(batches, o).delivered|
      ensures Flatten(SendAll(batches, o).delivered[|o.delivered|..]) == Encoded(Flatten(batches), valid, toJson)
      ensures SendAll(batches, o).writes - o.writes == |SendAll(batches, o).delivered| - |o.delivered|
      decreases |batches|
    {
      if batches == [] {
        assert o.delivered[|o.delivered|..] == [];
      } else {
        var b0, rest := batches[0], batches[1..];
        var o1 := SendOne(b0, o);
        var r := SendAll(rest, o1);
        SendAllHead(batches, o);
        SendAllDeliversEncoded(rest, o1);
        SendAllExtends(rest, o1);
        SendOneDelivers(b0, o);
        var ms := Encoded(b0, valid, toJson);
        var fresh0 := if ms == [] then [] else [ms];
        assert o1.delivered == o.delivered + fresh0;
        FlattenFlushed(ms);
        FlattenAfter(o.delivered, fresh0, r.delivered);
        assert batches == [b0] + rest;
        FlattenCons(b0, rest);
        EncodedAppend(b0, Flatten(rest), valid, toJson);
      }
    }

    /** Two stretches of sending, each extending the sent log, compose into one. */
    lemma SentChain(s0: seq<seq<Event>>, s1: seq<seq<Event>>, s2: seq<seq<Event>>, o0: Output, o1: Output, o2: Output)
      requires |s0| <= |s1| && s1[..|s0|] == s0 && o1 == SendAll(s1[|s0|..], o0)
      requires |s1| <= |s2| && s2[..|s1|] == s1 && o2 == SendAll(s2[|s1|..], o1)
      ensures |s0| <= |s2| && s2[..|s0|] == s0 && o2 == SendAll(s2[|s0|..], o0)
    {
      SliceChain(s0, s1, s2);
      SendAllAppend(s1[|s0|..], s2[|s1|..], o0);
    }

    /**
     * Since the earlier state, the sender's log only grew, and the batches added to it are exactly
     * what reached the writer and the counters, sent in log order.
     */
    twostate predicate SentAfter()
      reads this
    {
      |old(sent)| <= |sent| && sent[..|old(sent)|] == old(sent)
      && Written() == SendAll(sent[|old(sent)|..], old(Written()))
    }

    /** What sendBatch does to the broker and the counters for one batch, and the error it returns. */
    twostate predicate BatchSent(events: seq<Event>, new err: Option<string>)
      reads this
    {
      Written() == SendOne(events, old(Written())) && err == SendError(events, old(writes))
    }

    /** publishBatchWithRetry, against the writer this producer holds. */
    method PublishBatchWithRetry(messages: seq<Message>) returns (run: Run)
      modifies this`writes, this`delivered
      ensures Wrote(run, messages)
    {
      var waits;
      run, waits := WriteWithRetry(broker, writes, maxRetries, retryBackoff);
      writes := writes + run.attempts;
      if run.succeeded {
        delivered := delivered + [messages];
      }
    }

    /** sendBatch. */
    method SendBatch(events: seq<Event>) returns (err: Option<string>)
      modifies this`writes, this`delivered, this`metrics
      ensures BatchSent(events, err)
    {
      if |events| == 0 {
        return None;
      }
      var messages, failures := BuildMessages(events, valid, toJson);
      metrics := metrics + failures;
      if |messages| == 0 {
        return Some("no valid messages to send");
      }
      var run := PublishBatchWithRetry(messages);
      if !run.succeeded {
        metrics := metrics + FailedAll(events, "publish_error");
        return Some(RetryError("batch ", maxRetries));
      }
      metrics := metrics + PublishedAll(events);
      err := None;
    }

    /** One turn of the batch sender: send the oldest queued batch, if any. */
    method SenderStep() returns (err: Option<Option<string>>)
      requires Valid()
      modifies this`batchQueue, this`sent, this`writes, this`delivered, this`metrics
      ensures Valid()
      ensures old(batchQueue) == [] ==> err == None && unchanged(this)
      ensures old(batchQueue) != [] ==> (err.Some? && batchQueue == old(batchQueue)[1..]
        && sent == old(sent) + [old(batchQueue)[0]] && BatchSent(old(batchQueue)[0], err.value))
      ensures sent + batchQueue == old(sent) + old(batchQueue)
      ensures SendAll(batchQueue, Written()) == SendAll(old(batchQueue), old(Written()))
    {
      if batchQueue == [] {
        return None;
      }
      var batch := batchQueue[0];
      MoveHead(sent, batchQueue);
      SendAllHead(batchQueue, Written());
      batchQueue := batchQueue[1..];
      sent := sent + [batch];
      var e := SendBatch(batch);
      err := Some(e);
    }

    /** The batch sender draining the batch channel. */
    method SendQueued()
      requires Valid()
      modifies this`batchQueue, this`sent, this`writes, this`delivered, this`metrics
      ensures Valid()
      ensures batchQueue == [] && sent == old(sent) + old(batchQueue)
      ensures Written() == SendAll(old(batchQueue), old(Written()))
    {
      while batchQueue != []
        invariant Valid()
        invariant sent + batchQueue == old(sent) + old(batchQueue)
        invariant SendAll(batchQueue, Written()) == SendAll(old(batchQueue), old(Written()))
        decreases |batchQueue|
      {
        var _ := SenderStep();
      }
    }

    /** publishSync: one message, written with retries. */
    method PublishSync(e: Event) returns (err: Option<string>)
      modifies this`writes, this`delivered, this`metrics
      ensures SyncPublished(e, err)
    {
      var payload := toJson(e);
      if payload.None? {
        metrics := metrics + [Failed(e.eventType, "serialization_error")];
        return Some("failed to marshal event");
      }
      var message := MessageFor(e, payload.value);
      var waits;
      var run;
      run, waits := WriteWithRetry(broker, writes, maxRetries, retryBackoff);
      writes := writes + run.attempts;
      if !run.succeeded {
        metrics := metrics + [Failed(e.eventType, "publish_error")];
        return Some("failed to publish event: " + RetryError("", maxRetries));
      }
      delivered := delivered + [[message]];
      metrics := metrics + [Published(e.eventType)];
      err := None;
    }

    /** Publish: validate, then queue the event, or send it at once when the event channel is full. */
    method Publish(e: Event) returns (err: Option<string>)
      requires Valid()
      modifies this`eventQueue, this`writes, this`delivered, this`metrics
      ensures Valid()
      ensures closed ==> err == Some("producer is closed") && unchanged(this)
      ensures !closed && !valid(e) ==> (err == Some("event validation failed")
        && metrics == old(metrics) + [Failed(e.eventType, "validation_error")]
        && eventQueue == old(eventQueue) && writes == old(writes) && delivered == old(delivered))
      ensures !closed && valid(e) && |old(eventQueue)| < 2 * batchSize ==> (err == None
        && eventQueue == old(eventQueue) + [e]
        && metrics == old(metrics) && writes == old(writes) && delivered == old(delivered))
      ensures !closed && valid(e) && |old(eventQueue)| >= 2 * batchSize ==> eventQueue == old(eventQueue) && SyncPublished(e, err)
    {
      if closed {
        return Some("producer is closed");
      }
      if !valid(e) {
        metrics := metrics + [Failed(e.eventType, "validation_error")];
        return Some("event validation failed");
      }
      if |eventQueue| < 2 * batchSize {
        eventQueue := eventQueue + [e];
        return None;
      }
      err := PublishSync(e);
    }

    /** PublishBatch: refused once closed; an empty list is a no-op; otherwise sendBatch. */
    method PublishBatch(events: seq<Event>) returns (err: Option<string>)
      modifies this`writes, this`delivered, this`metrics
      ensures closed ==> err == Some("producer is closed") && unchanged(this)
      ensures !closed ==> BatchSent(events, err)
    {
      if closed {
        return Some("producer is closed");
      }
      if |events| == 0 {
        return None;
      }
      err := SendBatch(events);
    }

    /** The collector taking one event from the closed channel, the sender sending what that flushed. */
    method DrainStep()
      requires Valid() && batchQueue == [] && eventQueue != []
      modifies this`eventQueue, this`currentBatch, this`batchQueue, this`dropped, this`sent, this`writes, this`delivered, this`metrics
      ensures Valid() && batchQueue == [] && dropped == old(dropped) && eventQueue == old(eventQueue)[1..]
      ensures Flatten(sent) + currentBatch == Flatten(old(sent)) + old(currentBatch) + [old(eventQueue)[0]]
      ensures SentAfter()
    {
      ghost var s0, c0 := sent, currentBatch;
      var e := eventQueue[0];
      eventQueue := eventQueue[1..];
      CollectFromEmptyQueue(batchSize, Batches(), e);
      CollectEvent(e);
      ghost var q, c1 := batchQueue, currentBatch;
      SendQueued();
      AppendedParts(s0, q);
      FlattenAppend(s0, q);
      ConcatAssoc(Flatten(s0), Flatten(q), c1);
      ConcatAssoc(Flatten(s0), c0, [e]);
    }

    /** The collector draining the closed event channel, with the sender keeping up. */
    method DrainEvents()
      requires Valid() && batchQueue == []
      modifies this`eventQueue, this`currentBatch, this`batchQueue, this`dropped, this`sent, this`writes, this`delivered, this`metrics
      ensures Valid() && batchQueue == [] && eventQueue == [] && dropped == old(dropped)
      ensures Flatten(sent) + currentBatch == Flatten(old(sent)) + old(currentBatch) + old(eventQueue)
      ensures SentAfter()
    {
      assert sent[..|sent|] == sent && sent[|sent|..] == [];
      while eventQueue != []
        invariant Valid() && batchQueue == [] && dropped == old(dropped)
        invariant Flatten(sent) + currentBatch + eventQueue == Flatten(old(sent)) + old(currentBatch) + old(eventQueue)
        invariant SentAfter()
        decreases |eventQueue|
      {
        ghost var rest, s1, o1, c1 := eventQueue, sent, Written(), currentBatch;
        MoveHead(Flatten(s1) + c1, rest);
        DrainStep();
        SentChain(old(sent), s1, sent, old(Written()), o1, Written());
      }
    }

    /** The collector's final flush, and the sender sending that last batch. */
    method FlushAndSend()
      requires Valid() && batchQueue == []
      modifies this`currentBatch, this`batchQueue, this`dropped, this`sent, this`writes, this`delivered, this`metrics
      ensures Valid() && batchQueue == [] && currentBatch == [] && dropped == old(dropped)
      ensures Flatten(sent) == Flatten(old(sent)) + old(currentBatch)
      ensures SentAfter()
    {
      ghost var c := currentBatch;
      var _ := FlushCurrentBatch();
      ghost var q := batchQueue;
      assert q == if c == [] then [] else [c];
      SendQueued();
      AppendedParts(old(sent), q);
      FlattenAppend(old(sent), q);
      FlattenFlushed(c);
    }

    /** The sender sending what is queued, then the collector draining the closed event channel. */
    method SendAndDrainEvents()
      requires Valid()
      modifies this`eventQueue, this`currentBatch, this`batchQueue, this`dropped, this`sent, this`writes, this`delivered, this`metrics
      ensures Valid() && eventQueue == [] && batchQueue == [] && dropped == old(dropped)
      ensures SentAfter()
      ensures Flatten(sent) + currentBatch == Flatten(old(sent)) + Flatten(old(batchQueue)) + old(currentBatch) + old(eventQueue)
    {
      ghost var s0, o0 := sent, Written();
      SendQueued();
      FlattenAppend(s0, old(batchQueue));
      AppendedParts(s0, old(batchQueue));
      ghost var s1, o1 := sent, Written();
      DrainEvents();
      SentChain(s0, s1, sent, o0, o1, Written());
    }

    /**
     * A running producer's shutdown after the event channel is closed: the sender sends what is
     * queued, the collector drains the event channel with the sender keeping up, then flushes its
     * last batch, which the sender sends too.
     */
    method Drain()
      requires Valid()
      modifies this`eventQueue, this`currentBatch, this`batchQueue, this`dropped, this`sent, this`writes, this`delivered, this`metrics
      ensures Valid() && eventQueue == [] && currentBatch == [] && batchQueue == [] && dropped == old(dropped)
      ensures SentAfter()
      ensures Flatten(sent[|old(sent)|..]) == Flatten(old(batchQueue)) + old(currentBatch) + old(eventQueue)
    {
      ghost var s0, o0, q0, c0, e0 := sent, Written(), batchQueue, currentBatch, eventQueue;
      SendAndDrainEvents();
      ghost var s2, o2 := sent, Written();
      FlushAndSend();
      SentChain(s0, s2, sent, o0, o2, Written());
      ConcatAssoc4(Flatten(s0), Flatten(q0), c0, e0);
      FlattenNew(s0, sent, Flatten(q0) + c0 + e0);
    }

    /**
     * Close: idempotent. The first call closes the event channel; a running collector then drains
     * it and flushes its last batch, and the sender sends every batch; then the writer is closed.
     */
    method Close() returns (err: Option<string>)
      requires Valid()
      modifies this
      ensures Valid()
      ensures old(closed) ==> err == None && unchanged(this)
      ensures !old(closed) ==> (closed && started == old(started) && dropped == old(dropped)
        && (err == None <==> writerCloses)
        && (!writerCloses ==> err == Some("failed to close kafka writer")))
      ensures !old(closed) && old(started) ==> (eventQueue == [] && currentBatch == [] && batchQueue == []
        && SentAfter()
        && Flatten(sent[|old(sent)|..]) == Flatten(old(batchQueue)) + old(currentBatch) + old(eventQueue))
      ensures !old(closed) && old(started) && maxRetries >= 0 && (forall k :: broker(k)) ==>
        |old(delivered)| <= |delivered| && Flatten(delivered[|old(delivered)|..])
        == Encoded(Flatten(old(batchQueue)) + old(currentBatch) + old(eventQueue), valid, toJson)
      ensures !old(closed) && !old(started) ==> (eventQueue == old(eventQueue) && currentBatch == old(currentBatch)
        && batchQueue == old(batchQueue) && sent == old(sent) && writes == old(writes) && metrics == old(metrics)
        && delivered == old(delivered))
    {
      if closed {
        return None;
      }
      closed := true;
      if started {
        Drain();
        ghost var news := sent[|old(sent)|..];
        SendAllExtends(news, old(Written()));
        if maxRetries >= 0 && forall k :: broker(k) {
          SendAllDeliversEncoded(news, old(Written()));
        }
      }
      if !writerCloses {
        return Some("failed to close kafka writer");
      }
      err := None;
    }
  }

  /** NewProducer: the configuration checks, then a producer with nothing queued. */
  method NewProducer(cfg: KafkaConfig, valid: Event -> bool, toJson: Event -> Option<seq<byte>>, broker: nat -> bool, writerCloses: bool)
    returns (r: Result<Producer, string>)
    ensures CheckConfig(cfg).Err? ==> r == Err(CheckConfig(cfg).error)
    ensures CheckConfig(cfg).Ok? ==> (r.Ok? && fresh(r.value) && r.value.Valid() && r.value.Pristine()
      && r.value.batchSize == CheckConfig(cfg).value && r.value.topic == cfg.topic)
  {
    var checked := CheckConfig(cfg);
    if checked.Err? {
      return Err(checked.error);
    }
    var p := new Producer(cfg, checked.value, valid, toJson, broker, writerCloses);
    r := Ok(p);
  }
}
