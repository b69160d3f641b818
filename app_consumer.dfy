// The consumer application's Kafka consumer: each record is parsed (and validated) into an
// event and handed to the event handler with exponential-back-off retries, batches are
// gathered on demand, and counters of consumed messages, bytes and errors are kept.
module AppConsumer {
  import opened Wrappers
  import opened Numbers
  import opened Retry
  import opened Broker
  import CD = ConsumerDomain
  import SH = Shutdown
  import Seqs

  /** One handler call: a successful result, or an error (None for a nil error with an unsuccessful result). */
  datatype Attempt = Handled | Unsuccessful(cause: Option<string>)

  /** Whether each handler call, by number, succeeds. */
  function Succeeds(handle: nat -> Attempt): nat -> bool {
    (n: nat) => handle(n).Handled?
  }

  /** How `%v` prints the error of an unsuccessful attempt. */
  function CauseText(a: Attempt): string {
    match a
    case Handled => "<nil>"
    case Unsuccessful(None) => "<nil>"
    case Unsuccessful(Some(msg)) => msg
  }

  /** parseMessage: FromJSON, which also validates, with its error wrapped. */
  function ParseMessage(value: seq<byte>, decode: seq<byte> -> Result<CD.Event, string>): (r: Result<CD.Event, string>)
    ensures r.Ok? ==> CD.Validate(r.value).None?
    ensures r.Ok? <==> CD.FromJSON(decode(value)).Ok?
  {
    match CD.FromJSON(decode(value))
    case Ok(e) => Ok(e)
    case Err(err) => Err("failed to parse event from JSON: " + CD.JsonErrorText(err))
  }

  /** What processing one record does to the counters, and the result it reports. */
  datatype Effect = Effect(result: CD.ProcessingResult, consumed: nat, bytes: nat, errors: nat, calls: nat)

  /**
   * processMessage as a function of the record, the handler's outcomes from call `firstCall`
   * on, and maxRetries: a parse failure counts an error and calls no handler; otherwise the
   * handler is tried up to maxRetries + 1 times; success counts the message and its bytes,
   * exhaustion counts an error. With maxRetries < 0 nothing is tried and nothing counted.
   */
  function RecordEffect(value: seq<byte>, decode: seq<byte> -> Result<CD.Event, string>,
                        handle: nat -> Attempt, firstCall: nat, maxRetries: int): (r: Effect)
    ensures r.consumed + r.errors <= 1
    ensures r.result.success <==> r.consumed == 1
    ensures r.result.success ==> r.bytes == |value| && r.calls >= 1 && handle(firstCall + r.calls - 1).Handled?
    ensures !r.result.success ==> r.bytes == 0
    ensures r.calls <= MaxAttempts(maxRetries)
    ensures maxRetries >= 0 ==> r.consumed + r.errors == 1
    ensures ParseMessage(value, decode).Err? ==> (r.calls == 0 && r.errors == 1
      && r.result.error == "parse error: " + ParseMessage(value, decode).error)
  {
    match ParseMessage(value, decode)
    case Err(msg) => Effect(CD.ProcessingResult("", "", false, "parse error: " + msg), 0, 0, 1, 0)
    case Ok(e) =>
      var run := FirstSuccess(Shifted(Succeeds(handle), firstCall), 0, MaxAttempts(maxRetries));
      if run.succeeded then
        Effect(CD.ProcessingResult(e.id, e.eventType, true, ""), 1, |value|, 0, run.attempts)
      else if maxRetries < 0 then
        Effect(CD.ProcessingResult(e.id, e.eventType, false, ""), 0, 0, 0, 0)
      else
        Effect(CD.ProcessingResult(e.id, e.eventType, false,
                 "max retries exceeded: " + CauseText(handle(firstCall + run.attempts - 1))), 0, 0, 1, run.attempts)
  }

  /** RecordEffect of a record that parses, given the retry loop's run and its last outcome. */
  lemma RecordEffectOfRun(value: seq<byte>, decode: seq<byte> -> Result<CD.Event, string>, handle: nat -> Attempt,
                          firstCall: nat, maxRetries: int, run: Run, last: Attempt)
    requires ParseMessage(value, decode).Ok?
    requires run == FirstSuccess(Shifted(Succeeds(handle), firstCall), 0, MaxAttempts(maxRetries))
    requires run.attempts >= 1 ==> last == handle(firstCall + run.attempts - 1)
    ensures var e := ParseMessage(value, decode).value;
      RecordEffect(value, decode, handle, firstCall, maxRetries)
      == if run.succeeded then Effect(CD.ProcessingResult(e.id, e.eventType, true, ""), 1, |value|, 0, run.attempts)
         else if run.attempts == 0 then Effect(CD.ProcessingResult(e.id, e.eventType, false, ""), 0, 0, 0, 0)
         else Effect(CD.ProcessingResult(e.id, e.eventType, false, "max retries exceeded: " + CauseText(last)), 0, 0, 1, run.attempts)
  {
  }

  /** A record fails only after every handler call it was allowed failed. */
  lemma FailedRecordExhaustedRetries(value: seq<byte>, decode: seq<byte> -> Result<CD.Event, string>,
                                     handle: nat -> Attempt, firstCall: nat, maxRetries: int)
    requires maxRetries >= 0 && ParseMessage(value, decode).Ok?
    requires !RecordEffect(value, decode, handle, firstCall, maxRetries).result.success
    ensures RecordEffect(value, decode, handle, firstCall, maxRetries).calls == maxRetries + 1
    ensures forall n :: firstCall <= n <= firstCall + maxRetries ==> !handle(n).Handled?
    ensures |RecordEffect(value, decode, handle, firstCall, maxRetries).result.error| >= 22
      && RecordEffect(value, decode, handle, firstCall, maxRetries).result.error[..22] == "max retries exceeded: "
  {
    var ok := Shifted(Succeeds(handle), firstCall);
    FailsOnlyWhenAllFail(ok, MaxAttempts(maxRetries));
    forall n | firstCall <= n <= firstCall + maxRetries
      ensures !handle(n).Handled?
    {
      assert !ok(n - firstCall);
    }
  }

  /** A record that keeps failing waits backoff * (2^maxRetries - 1) in total: there is no wait after the last attempt. */
  lemma FailedRecordTotalWait(maxRetries: nat, backoff: int)
    ensures Sum(ExponentialWaits(MaxAttempts(maxRetries), backoff)) == backoff * (Pow2(maxRetries) - 1)
  {
    ExponentialWaitsTotal(maxRetries + 1, backoff);
  }

  /** What the reader yields to ConsumeBatch, one step at a time. */
  datatype ReadStep = Delivered(m: Message) | ReadFailed(cause: string) | TimerFired | Cancelled

  /** The outcome of a ConsumeBatch run: events, error, and the counters it bumped. */
  datatype BatchRun = BatchRun(events: seq<CD.Event>, err: Option<string>, consumed: nat, bytes: nat, errors: nat)

  /**
   * ConsumeBatch's loop from step `from` of the script, with the events `acc` gathered so far:
   * stop at `size` events, at the batch timer or at cancellation; on a read error keep what was
   * gathered, or fail if nothing was; skip (and count) records that do not parse. The end of the
   * script is the timer firing.
   */
  function Batch(script: seq<ReadStep>, from: nat, decode: seq<byte> -> Result<CD.Event, string>, size: int,
                 acc: seq<CD.Event>, consumed: nat, bytes: nat, errors: nat): (r: BatchRun)
    requires from <= |script|
    ensures r.consumed >= consumed && |r.events| == |acc| + (r.consumed - consumed)
    ensures r.err.Some? && r.events != [] ==> r.err == Some("context canceled")
    ensures r.err.Some? && r.err != Some("context canceled") ==> r.events == []
    ensures r.events != [] ==> r.events[..|acc|] == acc
    ensures |acc| <= size ==> |r.events| <= size
    ensures r.events != [] ==> forall i :: |acc| <= i < |r.events| ==> CD.Validate(r.events[i]).None?
    ensures r.consumed >= consumed && r.errors >= errors && r.bytes >= bytes
    decreases |script| - from
  {
    if |acc| >= size || from == |script| then BatchRun(acc, None, consumed, bytes, errors)
    else match script[from]
      case TimerFired => BatchRun(acc, None, consumed, bytes, errors)
      case Cancelled => BatchRun(acc, Some("context canceled"), consumed, bytes, errors)
      case ReadFailed(cause) =>
        if |acc| > 0 then BatchRun(acc, None, consumed, bytes, errors)
        else BatchRun([], Some("failed to read message: " + cause), consumed, bytes, errors)
      case Delivered(m) =>
        match ParseMessage(m.value, decode)
        case Err(_) => Batch(script, from + 1, decode, size, acc, consumed, bytes, errors + 1)
        case Ok(e) => Batch(script, from + 1, decode, size, acc + [e], consumed + 1, bytes + |m.value|, errors)
  }

  /** A delivered record moves Batch's loop on by one step, given the record's parse result. */
  lemma BatchDelivered(script: seq<ReadStep>, from: nat, decode: seq<byte> -> Result<CD.Event, string>, size: int,
                       acc: seq<CD.Event>, consumed: nat, bytes: nat, errors: nat, parsed: Result<CD.Event, string>)
    requires from < |script| && |acc| < size && script[from].Delivered?
    requires parsed == ParseMessage(script[from].m.value, decode)
    ensures parsed.Err? ==>
      Batch(script, from, decode, size, acc, consumed, bytes, errors) == Batch(script, from + 1, decode, size, acc, consumed, bytes, errors + 1)
    ensures parsed.Ok? ==>
      Batch(script, from, decode, size, acc, consumed, bytes, errors)
      == Batch(script, from + 1, decode, size, acc + [parsed.value], consumed + 1, bytes + |script[from].m.value|, errors)
  {
  }

  /** The events the delivered records among `steps` parse to, in read order. */
  function Parsed(steps: seq<ReadStep>, decode: seq<byte> -> Result<CD.Event, string>): seq<CD.Event> {
    if steps == [] then []
    else
      (if steps[0].Delivered? && ParseMessage(steps[0].m.value, decode).Ok?
       then [ParseMessage(steps[0].m.value, decode).value] else [])
      + Parsed(steps[1..], decode)
  }

  /** The delivered records among `steps` that do not parse. */
  function ParseFailures(steps: seq<ReadStep>, decode: seq<byte> -> Result<CD.Event, string>): nat {
    if steps == [] then 0
    else (if steps[0].Delivered? && ParseMessage(steps[0].m.value, decode).Err? then 1 else 0) + ParseFailures(steps[1..], decode)
  }

  /** The payload bytes of the delivered records among `steps` that parse. */
  function ParsedBytes(steps: seq<ReadStep>, decode: seq<byte> -> Result<CD.Event, string>): nat {
    if steps == [] then 0
    else
      (if steps[0].Delivered? && ParseMessage(steps[0].m.value, decode).Ok? then |steps[0].m.value| else 0)
      + ParsedBytes(steps[1..], decode)
  }

  /** The steps from `from` up to `stop` are all delivered records. */
  ghost predicate AllDelivered(script: seq<ReadStep>, from: nat, stop: nat) {
    from <= stop <= |script| && forall k :: from <= k < stop ==> script[k].Delivered?
  }

  /**
   * A run's events are the gathered ones followed by the records in `read` that parse, in read
   * order; its error count grows by the records that do not parse and its byte count by the
   * payloads of those that do.
   */
  ghost predicate Tallied(read: seq<ReadStep>, decode: seq<byte> -> Result<CD.Event, string>,
                          acc: seq<CD.Event>, consumed: nat, bytes: nat, errors: nat, r: BatchRun)
  {
    r.events == acc + Parsed(read, decode)
    && r.consumed == consumed + |Parsed(read, decode)|
    && r.errors == errors + ParseFailures(read, decode)
    && r.bytes == bytes + ParsedBytes(read, decode)
  }

  /**
   * A run of Batch that read the steps from `from` up to `stop`, all of them delivered records,
   * tallied as Tallied says; it stopped at the script's end, at a step that is not a record, or
   * with the batch full, and it reports cancellation only when it stopped at a cancellation.
   */
  ghost predicate ReadUpTo(script: seq<ReadStep>, from: nat, stop: nat, decode: seq<byte> -> Result<CD.Event, string>, size: int,
                           acc: seq<CD.Event>, consumed: nat, bytes: nat, errors: nat, r: BatchRun)
  {
    AllDelivered(script, from, stop)
    && Tallied(script[from..stop], decode, acc, consumed, bytes, errors, r)
    && (stop == |script| || !script[stop].Delivered? || |r.events| >= size)
    && (r.err == Some("context canceled") ==> stop < |script| && script[stop].Cancelled?)
  }

  /** A delivered record at the front of what was read adds its parse result to the tally. */
  lemma TalliedCons(step: ReadStep, rest: seq<ReadStep>, decode: seq<byte> -> Result<CD.Event, string>,
                    acc: seq<CD.Event>, consumed: nat, bytes: nat, errors: nat,
                    acc': seq<CD.Event>, consumed': nat, bytes': nat, errors': nat, r: BatchRun)
    requires step.Delivered? && Tallied(rest, decode, acc', consumed', bytes', errors', r)
    requires ParseMessage(step.m.value, decode).Ok? ==>
      acc' == acc + [ParseMessage(step.m.value, decode).value] && consumed' == consumed + 1
      && bytes' == bytes + |step.m.value| && errors' == errors
    requires ParseMessage(step.m.value, decode).Err? ==>
      acc' == acc && consumed' == consumed && bytes' == bytes && errors' == errors + 1
    ensures Tallied([step] + rest, decode, acc, consumed, bytes, errors, r)
  {
    assert ([step] + rest)[1..] == rest;
    var parsed := ParseMessage(step.m.value, decode);
    if parsed.Ok? {
      Seqs.ConcatAssoc(acc, [parsed.value], Parsed(rest, decode));
    }
  }

  /** A delivered record read before a prefix extends it by one step. */
  lemma ReadUpToCons(script: seq<ReadStep>, from: nat, stop: nat, decode: seq<byte> -> Result<CD.Event, string>, size: int,
                     acc: seq<CD.Event>, consumed: nat, bytes: nat, errors: nat,
                     acc': seq<CD.Event>, consumed': nat, bytes': nat, errors': nat, r: BatchRun)
    requires from < |script| && script[from].Delivered?
    requires ReadUpTo(script, from + 1, stop, decode, size, acc', consumed', bytes', errors', r)
    requires ParseMessage(script[from].m.value, decode).Ok? ==>
      acc' == acc + [ParseMessage(script[from].m.value, decode).value] && consumed' == consumed + 1
      && bytes' == bytes + |script[from].m.value| && errors' == errors
    requires ParseMessage(script[from].m.value, decode).Err? ==>
      acc' == acc && consumed' == consumed && bytes' == bytes && errors' == errors + 1
    ensures ReadUpTo(script, from, stop, decode, size, acc, consumed, bytes, errors, r)
  {
    assert script[from..stop] == [script[from]] + script[from + 1..stop];
    TalliedCons(script[from], script[from + 1..stop], decode, acc, consumed, bytes, errors, acc', consumed', bytes', errors', r);
  }

  /** Every run of Batch reads a prefix of delivered records, and its result is what ReadUpTo says of it. */
  lemma {:induction false} BatchReadsPrefix(script: seq<ReadStep>, from: nat, decode: seq<byte> -> Result<CD.Event, string>, size: int,
                                            acc: seq<CD.Event>, consumed: nat, bytes: nat, errors: nat)
    requires from <= |script|
    ensures exists stop: nat :: ReadUpTo(script, from, stop, decode, size, acc, consumed, bytes, errors,
                                         Batch(script, from, decode, size, acc, consumed, bytes, errors))
    decreases |script| - from
  {
    var r := Batch(script, from, decode, size, acc, consumed, bytes, errors);
    if |acc| >= size || from == |script| || !script[from].Delivered? {
      assert script[from..from] == [];
      assert ReadUpTo(script, from, from, decode, size, acc, consumed, bytes, errors, r);
    } else {
      var m := script[from].m;
      var parsed := ParseMessage(m.value, decode);
      var acc', consumed', bytes', errors' :=
        if parsed.Ok? then acc + [parsed.value] else acc,
        if parsed.Ok? then consumed + 1 else consumed,
        if parsed.Ok? then bytes + |m.value| else bytes,
        if parsed.Ok? then errors else errors + 1;
      BatchDelivered(script, from, decode, size, acc, consumed, bytes, errors, parsed);
      BatchReadsPrefix(script, from + 1, decode, size, acc', consumed', bytes', errors');
      var stop: nat :| ReadUpTo(script, from + 1, stop, decode, size, acc', consumed', bytes', errors', r);
      ReadUpToCons(script, from, stop, decode, size, acc, consumed, bytes, errors, acc', consumed', bytes', errors', r);
    }
  }

  /** The steps before the first cancellation that deliver a record or fail to read one. */
  function CountedSteps(script: seq<ReadStep>): (n: nat)
    ensures n <= |script|
  {
    if script == [] || script[0].Cancelled? then 0
    else CountedSteps(script[1..]) + (if script[0].TimerFired? then 0 else 1)
  }

  /** A step that is not a cancellation, after steps that are not, adds one to the count unless it is the timer. */
  lemma CountedStepsSnoc(script: seq<ReadStep>, i: nat)
    requires i < |script| && !script[i].Cancelled?
    requires forall j :: 0 <= j < i ==> !script[j].Cancelled?
    ensures CountedSteps(script[..i + 1]) == CountedSteps(script[..i]) + (if script[i].TimerFired? then 0 else 1)
  {
    assert script[..i + 1] == script[..i] + [script[i]];
    CountedStepsAppend(script[..i], [script[i]]);
  }

  /** Nothing from the first cancellation on is counted. */
  lemma CountedStepsStopAt(script: seq<ReadStep>, i: nat)
    requires i < |script| && script[i].Cancelled?
    requires forall j :: 0 <= j < i ==> !script[j].Cancelled?
    ensures CountedSteps(script) == CountedSteps(script[..i])
  {
    assert script == script[..i] + script[i..];
    CountedStepsAppend(script[..i], script[i..]);
  }

  /** Before a cancellation the counted steps add up. */
  lemma {:induction false} CountedStepsAppend(a: seq<ReadStep>, b: seq<ReadStep>)
    requires forall j :: 0 <= j < |a| ==> !a[j].Cancelled?
    ensures CountedSteps(a + b) == CountedSteps(a) + CountedSteps(b)
    decreases |a|
  {
    if a == [] {
      assert a + b == b;
    } else {
      assert (a + b)[1..] == a[1..] + b;
      CountedStepsAppend(a[1..], b);
    }
  }

  /** Whether the caller cancels Consume at some step of the script. */
  predicate Cancels(script: seq<ReadStep>) {
    exists i :: 0 <= i < |script| && script[i].Cancelled?
  }

  /** What Consume's loop returns: ctx.Err() when the caller cancels, nil when the consumer's own context ends it. */
  function LoopError(script: seq<ReadStep>): Option<string> {
    if Cancels(script) then Some("context canceled") else None
  }

  /** The signals when Consume's loop ends: the consumer's own context is cancelled unless the caller's ended it. */
  function LoopEndSignals(script: seq<ReadStep>, s: SH.Signals): SH.Signals {
    if Cancels(script) then s else s.(cancelled := true)
  }

  /** The consumer with its counters (ConsumerStats without its times and lag). */
  class Consumer {
    const decode: seq<byte> -> Result<CD.Event, string>
    const handle: nat -> Attempt
    const maxRetries: int
    const retryBackoff: int
    const readerCloses: bool
    var closed: bool
    var messagesConsumed: nat
    var bytesConsumed: nat
    var errors: nat
    var handleCalls: nat
    /** The goroutines Consume has counted in the WaitGroup. */
    var counted: set<SH.Goroutine>
    /** How far their shutdown has got. */
    var signals: SH.Signals

    constructor(decode: seq<byte> -> Result<CD.Event, string>, handle: nat -> Attempt, maxRetries: int,
                retryBackoff: int, readerCloses: bool)
      ensures this.decode == decode && this.handle == handle && this.maxRetries == maxRetries
      ensures this.retryBackoff == retryBackoff && this.readerCloses == readerCloses
      ensures !closed && messagesConsumed == 0 && bytesConsumed == 0 && errors == 0 && handleCalls == 0
      ensures counted == {} && signals == SH.Quiet
    {
      this.decode := decode;
      this.handle := handle;
      this.maxRetries := maxRetries;
      this.retryBackoff := retryBackoff;
      this.readerCloses := readerCloses;
      closed := false;
      messagesConsumed := 0;
      bytesConsumed := 0;
      errors := 0;
      handleCalls := 0;
      counted := {};
      signals := SH.Quiet;
    }

    /** Stats: a copy of the counters. */
    method Stats() returns (consumed: nat, bytes: nat, errorCount: nat)
      ensures consumed == messagesConsumed && bytes == bytesConsumed && errorCount == errors
    {
      return messagesConsumed, bytesConsumed, errors;
    }

    /**
     * The retry loop of processMessage: handler calls numbered from `first`, up to maxRetries + 1
     * of them, stopping at the first success and waiting retryBackoff * 2^attempt after each
     * failed attempt but the last; `last` is the last call's outcome.
     */
    method HandleWithRetry(first: nat) returns (run: Run, waits: seq<int>, last: Attempt)
      ensures run == FirstSuccess(Shifted(Succeeds(handle), first), 0, MaxAttempts(maxRetries))
      ensures waits == ExponentialWaits(run.attempts, retryBackoff)
      ensures run.attempts >= 1 ==> last == handle(first + run.attempts - 1)
    {
      ghost var ok := Shifted(Succeeds(handle), first);
      var limit := MaxAttempts(maxRetries);
      waits := [];
      last := Handled;
      var attempt := 0;
      while attempt <= maxRetries
        invariant 0 <= attempt <= limit
        invariant maxRetries >= 0 ==> attempt <= maxRetries
        invariant FirstSuccess(ok, attempt, limit) == FirstSuccess(ok, 0, limit)
        invariant waits == ExponentialWaits(attempt + 1, retryBackoff)
      {
        last := handle(first + attempt);
        FirstSuccessStep(Succeeds(handle), first, attempt, limit);
        assert Succeeds(handle)(first + attempt) == last.Handled?;
        if last.Handled? {
          return Run(attempt + 1, true), waits, last;
        }
        if attempt < maxRetries {
          waits := waits + [retryBackoff * Pow2(attempt)];
        } else {
          return Run(limit, false), waits, last;
        }
        attempt := attempt + 1;
      }
      run := Run(0, false);
    }

    /** processMessage: the result and the counters move as RecordEffect says. */
    method ProcessMessage(m: Message) returns (result: CD.ProcessingResult, waits: seq<int>)
      modifies this`messagesConsumed, this`bytesConsumed, this`errors, this`handleCalls
      ensures var eff := RecordEffect(m.value, decode, handle, old(handleCalls), maxRetries);
        result == eff.result && waits == ExponentialWaits(eff.calls, retryBackoff)
        && messagesConsumed == old(messagesConsumed) + eff.consumed
        && bytesConsumed == old(bytesConsumed) + eff.bytes
        && errors == old(errors) + eff.errors
        && handleCalls == old(handleCalls) + eff.calls
    {
      ghost var first := handleCalls;
      var parsed := ParseMessage(m.value, decode);
      if parsed.Err? {
        errors := errors + 1;
        result := CD.ProcessingResult("", "", false, "parse error: " + parsed.error);
        assert RecordEffect(m.value, decode, handle, first, maxRetries) == Effect(result, 0, 0, 1, 0);
        return result, [];
      }
      var event := parsed.value;
      var run, last;
      run, waits, last := HandleWithRetry(handleCalls);
      RecordEffectOfRun(m.value, decode, handle, first, maxRetries, run, last);
      handleCalls := handleCalls + run.attempts;
      if run.succeeded {
        messagesConsumed := messagesConsumed + 1;
        bytesConsumed := bytesConsumed + |m.value|;
        result := CD.ProcessingResult(event.id, event.eventType, true, "");
        assert RecordEffect(m.value, decode, handle, first, maxRetries) == Effect(result, 1, |m.value|, 0, run.attempts);
      } else if run.attempts == 0 {
        result := CD.ProcessingResult(event.id, event.eventType, false, "");
        assert RecordEffect(m.value, decode, handle, first, maxRetries) == Effect(result, 0, 0, 0, 0);
      } else {
        errors := errors + 1;
        result := CD.ProcessingResult(event.id, event.eventType, false, "max retries exceeded: " + CauseText(last));
        assert RecordEffect(m.value, decode, handle, first, maxRetries) == Effect(result, 0, 0, 1, run.attempts);
      }
    }

    /** One delivered record inside ConsumeBatch's loop: Batch moves on by one step, and so do the counters. */
    method ReadDelivered(script: seq<ReadStep>, i: nat, batchSize: int, events: seq<CD.Event>,
                         ghost consumed: nat, ghost bytes: nat, ghost skipped: nat)
      returns (events2: seq<CD.Event>, ghost consumed2: nat, ghost bytes2: nat, ghost skipped2: nat)
      requires i < |script| && script[i].Delivered? && |events| < batchSize
      modifies this`messagesConsumed, this`bytesConsumed, this`errors
      ensures Batch(script, i, decode, batchSize, events, consumed, bytes, skipped)
        == Batch(script, i + 1, decode, batchSize, events2, consumed2, bytes2, skipped2)
      ensures messagesConsumed + consumed == old(messagesConsumed) + consumed2
      ensures bytesConsumed + bytes == old(bytesConsumed) + bytes2
      ensures errors + skipped == old(errors) + skipped2
    {
      var m := script[i].m;
      var parsed := ParseMessage(m.value, decode);
      BatchDelivered(script, i, decode, batchSize, events, consumed, bytes, skipped, parsed);
      if parsed.Err? {
        errors := errors + 1;
        events2, consumed2, bytes2, skipped2 := events, consumed, bytes, skipped + 1;
      } else {
        events2 := events + [parsed.value];
        messagesConsumed := messagesConsumed + 1;
        bytesConsumed := bytesConsumed + |m.value|;
        consumed2, bytes2, skipped2 := consumed + 1, bytes + |m.value|, skipped;
        assert bytes2 == bytes + |script[i].m.value|;
      }
    }

    /**
     * ConsumeBatch over what the reader yields: a closed consumer fails with "consumer is
     * closed"; otherwise the events, error and counters are those of Batch.
     */
    method ConsumeBatch(script: seq<ReadStep>, batchSize: int) returns (events: seq<CD.Event>, err: Option<string>)
      modifies this`messagesConsumed, this`bytesConsumed, this`errors
      ensures old(closed) ==> (events == [] && err == Some("consumer is closed")
        && messagesConsumed == old(messagesConsumed) && bytesConsumed == old(bytesConsumed) && errors == old(errors))
      ensures !old(closed) ==> (var r := Batch(script, 0, decode, batchSize, [], 0, 0, 0);
        events == r.events && err == r.err
        && messagesConsumed == old(messagesConsumed) + r.consumed
        && bytesConsumed == old(bytesConsumed) + r.bytes && errors == old(errors) + r.errors)
    {
      if closed {
        return [], Some("consumer is closed");
      }
      events := [];
      ghost var consumed: nat, bytes: nat, skipped: nat := 0, 0, 0;
      ghost var target := Batch(script, 0, decode, batchSize, [], 0, 0, 0);
      var i := 0;
      while |events| < batchSize && i < |script|
        invariant 0 <= i <= |script|
        invariant Batch(script, i, decode, batchSize, events, consumed, bytes, skipped) == target
        invariant messagesConsumed == old(messagesConsumed) + consumed
        invariant bytesConsumed == old(bytesConsumed) + bytes && errors == old(errors) + skipped
        decreases |script| - i
        modifies this`messagesConsumed, this`bytesConsumed, this`errors
      {
        match script[i] {
          case TimerFired =>
            return events, None;
          case Cancelled =>
            return events, Some("context canceled");
          case ReadFailed(cause) =>
            if |events| > 0 {
              return events, None;
            }
            return [], Some("failed to read message: " + cause);
          case Delivered(_) =>
            events, consumed, bytes, skipped := ReadDelivered(script, i, batchSize, events, consumed, bytes, skipped);
        }
        i := i + 1;
      }
      err := None;
    }

    /**
     * Consume's read loop, run sequentially over what the reader yields until the caller cancels
     * or the script ends (the consumer's own context being cancelled by Close): each read error
     * counts an error and each record is processed, so with maxRetries >= 0 every counted step
     * moves exactly one counter by one.
     */
    method ReadLoop(script: seq<ReadStep>) returns (err: Option<string>)
      modifies this`messagesConsumed, this`bytesConsumed, this`errors, this`handleCalls
      ensures err == LoopError(script)
      ensures maxRetries >= 0 ==>
        messagesConsumed + errors == old(messagesConsumed) + old(errors) + CountedSteps(script)
    {
      var i := 0;
      while i < |script|
        invariant 0 <= i <= |script|
        invariant maxRetries >= 0 ==> messagesConsumed + errors == old(messagesConsumed) + old(errors) + CountedSteps(script[..i])
        invariant forall j :: 0 <= j < i ==> !script[j].Cancelled?
        modifies this`messagesConsumed, this`bytesConsumed, this`errors, this`handleCalls
      {
        if script[i].Cancelled? {
          CountedStepsStopAt(script, i);
          return Some("context canceled");
        }
        CountedStepsSnoc(script, i);
        ghost var before := messagesConsumed + errors;
        match script[i] {
          case TimerFired =>
          case ReadFailed(_) =>
            errors := errors + 1;
          case Delivered(m) =>
            var result, waits := ProcessMessage(m);
            assert maxRetries >= 0 ==> messagesConsumed + errors == before + 1;
        }
        i := i + 1;
      }
      assert script[..i] == script;
      err := None;
    }

    /**
     * Consume: a closed consumer fails with "consumer is closed". Otherwise the workers, the
     * result collector and the metrics updater are counted, the read loop runs, and the deferred
     * shutdown ConsumeDefer waits for all of them before closing the result channel the
     * collector ranges over: from open channels Consume never returns.
     */
    method Consume(script: seq<ReadStep>) returns (exit: SH.Exit<Option<string>>)
      modifies this`messagesConsumed, this`bytesConsumed, this`errors, this`handleCalls, this`counted, this`signals
      ensures old(closed) ==> (exit == SH.Returns(Some("consumer is closed"))
        && messagesConsumed == old(messagesConsumed) && errors == old(errors)
        && counted == old(counted) && signals == old(signals))
      ensures !old(closed) ==> (counted == old(counted) + SH.Pool
        && var o := SH.Run(SH.ConsumeDefer, LoopEndSignals(script, old(signals)));
        signals == o.signals && exit == SH.ExitOf(o, LoopError(script)))
      ensures !old(closed) && maxRetries >= 0 ==>
        messagesConsumed + errors == old(messagesConsumed) + old(errors) + CountedSteps(script)
      ensures !old(closed) && !old(signals).inputClosed && !old(signals).resultsClosed ==> exit == SH.Blocks
    {
      if closed {
        return SH.Returns(Some("consumer is closed"));
      }
      counted := counted + SH.Pool;
      var err := ReadLoop(script);
      var end := if err.None? then signals.(cancelled := true) else signals;
      var o := SH.Run(SH.ConsumeDefer, end);
      if !signals.inputClosed && !signals.resultsClosed {
        SH.ConsumeDeferBlocks(end);
      }
      signals := o.signals;
      exit := SH.ExitOf(o, err);
    }

    /**
     * Consume with the collector waited for last (CollectorLast): from open channels it returns
     * the loop's error, and every goroutine it started has been told to leave.
     */
    method ConsumeCollectorLast(script: seq<ReadStep>) returns (exit: SH.Exit<Option<string>>)
      modifies this`messagesConsumed, this`bytesConsumed, this`errors, this`handleCalls, this`counted, this`signals
      ensures old(closed) ==> (exit == SH.Returns(Some("consumer is closed"))
        && messagesConsumed == old(messagesConsumed) && errors == old(errors)
        && counted == old(counted) && signals == old(signals))
      ensures !old(closed) ==> (counted == old(counted) + SH.Pool
        && var o := SH.Run(SH.CollectorLast, LoopEndSignals(script, old(signals)));
        signals == o.signals && exit == SH.ExitOf(o, LoopError(script)))
      ensures !old(closed) && maxRetries >= 0 ==>
        messagesConsumed + errors == old(messagesConsumed) + old(errors) + CountedSteps(script)
      ensures !old(closed) && !old(signals).inputClosed && !old(signals).resultsClosed ==>
        exit == SH.Returns(LoopError(script)) && signals.cancelled && signals.inputClosed && signals.resultsClosed
    {
      if closed {
        return SH.Returns(Some("consumer is closed"));
      }
      counted := counted + SH.Pool;
      var err := ReadLoop(script);
      var end := if err.None? then signals.(cancelled := true) else signals;
      var o := SH.Run(SH.CollectorLast, end);
      if !signals.inputClosed && !signals.resultsClosed {
        SH.CollectorLastReturns(end);
      }
      signals := o.signals;
      exit := SH.ExitOf(o, err);
    }

    /**
     * Close: the compare-and-swap lets only the first call through; it cancels the consumer's
     * context and waits for every goroutine counted, then closes the reader. After a Consume the
     * collector is still counted and its channel still open, so Close never returns.
     */
    method Close() returns (exit: SH.Exit<Option<string>>)
      modifies this`closed, this`signals
      ensures closed
      ensures old(closed) ==> exit == SH.Returns(None) && signals == old(signals)
      ensures !old(closed) ==> (var o := SH.Run(SH.CancelAndWait(counted), old(signals));
        signals == o.signals
        && exit == SH.ExitOf(o, if readerCloses then None else Some("failed to close kafka reader")))
      ensures !old(closed) && counted == {} ==>
        exit == SH.Returns(if readerCloses then None else Some("failed to close kafka reader"))
      ensures !old(closed) && SH.Collector in counted && !old(signals).resultsClosed ==> exit == SH.Blocks
    {
      if closed {
        return SH.Returns(None);
      }
      closed := true;
      var o := SH.Run(SH.CancelAndWait(counted), signals);
      if counted == {} {
        SH.CancelAndWaitNothing(signals);
      } else if SH.Collector in counted && !signals.resultsClosed {
        SH.CancelAndWaitBlocks(counted, signals);
      }
      signals := o.signals;
      exit := SH.ExitOf(o, if readerCloses then None else Some("failed to close kafka reader"));
    }
  }
}
