// The consumer service's Kafka consumer: records are decoded and validated, processed with
// linear-back-off retries, and the records whose processing did not fail are handed to a
// committer that commits them in batches.
module PipelineConsumer {
  import opened Wrappers
  import opened Numbers
  import opened Text
  import opened Retry
  import opened Broker
  import opened Seqs
  import CD = ConsumerDomain
  import SD = ServiceDomain
  import SH = Shutdown

  /** kafka.FirstOffset and kafka.LastOffset. */
  const FirstOffset: int := -2
  const LastOffset: int := -1

  datatype ReaderConfig = ReaderConfig(brokers: seq<string>, topic: string, groupId: string, startOffset: string)

  /** The reader's start offset: the first offset only for "earliest", the last offset for "latest" and anything else. */
  function StartOffsetFor(name: string): (r: int)
    ensures r == FirstOffset <==> name == "earliest"
    ensures r == FirstOffset || r == LastOffset
  {
    match name
    case "earliest" => FirstOffset
    case "latest" => LastOffset
    case _ => LastOffset
  }

  /** NewConsumer's checks, in order, and the start offset it configures when they pass. */
  function CheckConfig(cfg: ReaderConfig): (r: Result<int, string>)
    ensures r.Ok? <==> |cfg.brokers| > 0 && cfg.topic != "" && cfg.groupId != ""
    ensures r.Ok? ==> r.value == StartOffsetFor(cfg.startOffset)
    ensures |cfg.brokers| == 0 ==> r == Err("kafka brokers list is empty")
    ensures |cfg.brokers| > 0 && cfg.topic == "" ==> r == Err("kafka topic is empty")
    ensures |cfg.brokers| > 0 && cfg.topic != "" && cfg.groupId == "" ==> r == Err("kafka group ID is empty")
  {
    if |cfg.brokers| == 0 then Err("kafka brokers list is empty")
    else if cfg.topic == "" then Err("kafka topic is empty")
    else if cfg.groupId == "" then Err("kafka group ID is empty")
    else Ok(StartOffsetFor(cfg.startOffset))
  }

  /** The two longer patterns contain the two shorter ones. */
  lemma LongerPatternsImplied(s: string)
    ensures Contains(s, "context deadline exceeded") ==> Contains(s, "deadline exceeded")
    ensures Contains(s, "i/o timeout") ==> Contains(s, "timeout")
  {
    assert "context deadline exceeded" == "context " + "deadline exceeded";
    assert "i/o timeout" == "i/o " + "timeout";
    if Contains(s, "context deadline exceeded") {
      ContainsTail(s, "context ", "deadline exceeded");
    }
    if Contains(s, "i/o timeout") {
      ContainsTail(s, "i/o ", "timeout");
    }
  }

  /** isTimeoutError, with None for a nil error: the four patterns reduce to "timeout" and "deadline exceeded". */
  function IsTimeoutError(err: Option<string>): (r: bool)
    ensures r <==> err.Some? && (Contains(err.value, "timeout") || Contains(err.value, "deadline exceeded"))
  {
    match err
    case None => false
    case Some(s) =>
      LongerPatternsImplied(s);
      Contains(s, "timeout") || Contains(s, "deadline exceeded")
      || Contains(s, "context deadline exceeded") || Contains(s, "i/o timeout")
  }

  /** The error of an event whose every attempt failed; the source's wrapped cause is not modelled. */
  function RetryError(maxRetries: int): string {
    "failed to process event after " + FormatInt(maxRetries) + " attempts"
  }

  /**
   * processEventWithRetry: attempts 0..maxRetries of ProcessEvent, whose calls numbered from
   * `firstCall` succeed as `process` says, waiting attempt * backoff before each retry.
   */
  method ProcessEventWithRetry(process: nat -> bool, firstCall: nat, maxRetries: int, backoff: int)
    returns (run: Run, waits: seq<int>, err: Option<string>)
    ensures run == FirstSuccess(Shifted(process, firstCall), 0, MaxAttempts(maxRetries))
    ensures waits == LinearWaits(run.attempts, backoff)
    ensures err.None? <==> run.succeeded
    ensures err.Some? ==> err.value == RetryError(maxRetries)
  {
    var ok := Shifted(process, firstCall);
    var limit := MaxAttempts(maxRetries);
    waits := [];
    var attempt := 0;
    while attempt <= maxRetries
      invariant 0 <= attempt <= limit
      invariant FirstSuccess(ok, attempt, limit) == FirstSuccess(ok, 0, limit)
      invariant waits == LinearWaits(attempt, backoff)
    {
      if attempt > 0 {
        waits := waits + [attempt * backoff];
      }
      FirstSuccessStep(process, firstCall, attempt, limit);
      if process(firstCall + attempt) {
        return Run(attempt + 1, true), waits, None;
      }
      attempt := attempt + 1;
    }
    run := Run(limit, false);
    err := Some(RetryError(maxRetries));
  }

  /** The error of an exhausted retry loop names maxRetries as the number of attempts, one fewer than it made. */
  lemma RetryErrorUndercounts(process: nat -> bool, firstCall: nat, maxRetries: int)
    requires 0 <= maxRetries <= Int64Max
    requires !FirstSuccess(Shifted(process, firstCall), 0, MaxAttempts(maxRetries)).succeeded
    ensures var made := FirstSuccess(Shifted(process, firstCall), 0, MaxAttempts(maxRetries)).attempts;
      var reported := RetryError(maxRetries)[30..|RetryError(maxRetries)| - 9];
      RetryError(maxRetries) == "failed to process event after " + reported + " attempts"
      && Atoi(reported) == Some(made - 1)
  {
    var text := RetryError(maxRetries);
    assert text[30..|text| - 9] == FormatInt(maxRetries);
    AtoiFormatInt(maxRetries);
  }

  /** What processMessage made of a record, and the counter it bumps. */
  datatype Outcome =
    | ParseFailed
    | ValidationFailed(eventType: string)
    | ProcessingFailed(eventType: string)
    | Processed(eventType: string)

  datatype Metric = Consumed(eventType: string) | FailedEvent(eventType: string, reason: string)

  function MetricOf(o: Outcome): (m: Metric)
    ensures m.Consumed? <==> o.Processed?
  {
    match o
    case ParseFailed => FailedEvent("unknown", "parse_error")
    case ValidationFailed(t) => FailedEvent(t, "validation_error")
    case ProcessingFailed(t) => FailedEvent(t, "processing_error")
    case Processed(t) => Consumed(t)
  }

  /**
   * processMessage: a record that does not decode, or decodes to an event failing Validate
   * against `now`, is logged and reported as handled (no error); an event is otherwise
   * processed with retries, and only a processing failure is returned as an error.
   */
  method ProcessMessage(m: Message, decode: seq<byte> -> Result<CD.Event, string>, now: int,
                        process: nat -> bool, firstCall: nat, maxRetries: int, backoff: int)
    returns (outcome: Outcome, run: Run, err: Option<string>)
    ensures decode(m.value).Err? ==> outcome == ParseFailed && run.attempts == 0
    ensures decode(m.value).Ok? && SD.Validate(decode(m.value).value, now).Some? ==>
      outcome == ValidationFailed(decode(m.value).value.eventType) && run.attempts == 0
    ensures decode(m.value).Ok? && SD.Validate(decode(m.value).value, now).None? ==>
      (run == FirstSuccess(Shifted(process, firstCall), 0, MaxAttempts(maxRetries))
      && outcome == (var t := decode(m.value).value.eventType; if run.succeeded then Processed(t) else ProcessingFailed(t)))
    ensures err.None? <==> !outcome.ProcessingFailed?
  {
    var parsed := SD.FromJSON(decode(m.value));
    if parsed.Err? {
      return ParseFailed, Run(0, false), None;
    }
    var event := parsed.value;
    if SD.Validate(event, now).Some? {
      return ValidationFailed(event.eventType), Run(0, false), None;
    }
    var waits;
    run, waits, err := ProcessEventWithRetry(process, firstCall, maxRetries, backoff);
    outcome := if run.succeeded then Processed(event.eventType) else ProcessingFailed(event.eventType);
  }

  /** messageWorker forwards a record to the committer exactly when processMessage returned no error. */
  function Forwarded(outcomes: seq<Outcome>): (keep: seq<bool>)
    ensures |keep| == |outcomes|
    ensures forall i :: 0 <= i < |outcomes| ==> (keep[i] <==> !outcomes[i].ProcessingFailed?)
  {
    seq(|outcomes|, i requires 0 <= i < |outcomes| => !outcomes[i].ProcessingFailed?)
  }

  lemma ForwardedStep(records: seq<Message>, outcomes: seq<Outcome>, outcome: Outcome, i: nat)
    requires i < |records| && |outcomes| == i
    ensures Filter(records[..i + 1], Forwarded(outcomes + [outcome]))
      == Filter(records[..i], Forwarded(outcomes)) + (if outcome.ProcessingFailed? then [] else [records[i]])
  {
    assert records[..i + 1] == records[..i] + [records[i]];
    assert Forwarded(outcomes + [outcome]) == Forwarded(outcomes) + [!outcome.ProcessingFailed?];
    FilterSnoc(records[..i], Forwarded(outcomes), records[i], !outcome.ProcessingFailed?);
  }

  /** Records that failed to parse or to validate still reach the committer. */
  lemma UnprocessableRecordsForwarded(records: seq<Message>, outcomes: seq<Outcome>, i: nat)
    requires |outcomes| == |records| && i < |records|
    requires outcomes[i].ParseFailed? || outcomes[i].ValidationFailed?
    ensures records[i] in Filter(records, Forwarded(outcomes))
  {
    FilterContains(records, Forwarded(outcomes), i);
  }

  /** Every forwarded record is one whose processing did not fail. */
  lemma ForwardedRecordsNotFailed(records: seq<Message>, outcomes: seq<Outcome>, m: Message)
    requires |outcomes| == |records| && m in Filter(records, Forwarded(outcomes))
    ensures exists i :: 0 <= i < |records| && records[i] == m && !outcomes[i].ProcessingFailed?
  {
    FilterMembers(records, Forwarded(outcomes), m);
  }

  /** The commits acknowledged by the broker, where commit call i succeeds when ok(i). */
  function Acknowledged(attempts: seq<seq<Message>>, ok: nat -> bool): (r: seq<seq<Message>>)
    ensures |r| <= |attempts|
  {
    if attempts == [] then []
    else Acknowledged(attempts[..|attempts| - 1], ok) + (if ok(|attempts| - 1) then [attempts[|attempts| - 1]] else [])
  }

  lemma {:induction false} AcknowledgedAll(attempts: seq<seq<Message>>, ok: nat -> bool)
    requires forall i: nat :: i < |attempts| ==> ok(i)
    ensures Acknowledged(attempts, ok) == attempts
    decreases |attempts|
  {
    if attempts != [] {
      var front := attempts[..|attempts| - 1];
      AcknowledgedAll(front, ok);
      assert ok(|attempts| - 1);
      assert front + [attempts[|attempts| - 1]] == attempts;
    }
  }

  /** Which of the first n commit calls the broker acknowledges. */
  function Oks(n: nat, ok: nat -> bool): (keep: seq<bool>)
    ensures |keep| == n && forall i :: 0 <= i < n ==> (keep[i] <==> ok(i))
  {
    seq(n, i requires 0 <= i => ok(i))
  }

  /** The acknowledged commits are exactly the attempted ones whose call succeeded, in call order. */
  lemma {:induction false} AcknowledgedIsFilter(attempts: seq<seq<Message>>, ok: nat -> bool)
    ensures Acknowledged(attempts, ok) == Filter(attempts, Oks(|attempts|, ok))
    decreases |attempts|
  {
    if attempts != [] {
      var n := |attempts|;
      AcknowledgedIsFilter(attempts[..n - 1], ok);
      assert Oks(n, ok)[..n - 1] == Oks(n - 1, ok);
    }
  }

  /** A commit is acknowledged exactly when some call that carried it succeeded. */
  lemma AcknowledgedMembers(attempts: seq<seq<Message>>, ok: nat -> bool, b: seq<Message>)
    ensures b in Acknowledged(attempts, ok) <==> exists i :: 0 <= i < |attempts| && ok(i) && attempts[i] == b
  {
    AcknowledgedIsFilter(attempts, ok);
    if b in Acknowledged(attempts, ok) {
      FilterMembers(attempts, Oks(|attempts|, ok), b);
    }
    if i :| 0 <= i < |attempts| && ok(i) && attempts[i] == b {
      FilterContains(attempts, Oks(|attempts|, ok), i);
    }
  }

  /**
   * batchCommitter's state: the batch being filled and the commit calls it made. Every
   * message received is in an attempted commit or still in the batch, in arrival order.
   */
  class Committer {
    const maxBatchSize: int
    const commitOk: nat -> bool
    var batch: seq<Message>
    var attempted: seq<seq<Message>>
    var committed: seq<seq<Message>>
    ghost var received: seq<Message>

    ghost predicate Consistent()
      reads this
    {
      Flatten(attempted) + batch == received
      && committed == Acknowledged(attempted, commitOk)
      && forall i :: 0 <= i < |attempted| ==> attempted[i] != []
    }

    /** Between messages the batch is empty or shorter than the batch size. */
    ghost predicate Valid()
      reads this
    {
      Consistent() && (batch == [] || |batch| < maxBatchSize)
    }

    constructor(maxBatchSize: int, commitOk: nat -> bool)
      ensures Valid() && this.maxBatchSize == maxBatchSize && this.commitOk == commitOk
      ensures batch == [] && attempted == [] && committed == [] && received == []
    {
      this.maxBatchSize := maxBatchSize;
      this.commitOk := commitOk;
      batch := [];
      attempted := [];
      committed := [];
      received := [];
    }

    /** commitBatch: nothing for an empty batch; otherwise one commit attempt, after which the batch is emptied whatever its outcome. */
    method CommitBatch()
      requires Consistent()
      modifies this`batch, this`attempted, this`committed
      ensures Valid() && batch == [] && received == old(received)
      ensures old(batch) == [] ==> attempted == old(attempted) && committed == old(committed)
      ensures old(batch) != [] ==> (attempted == old(attempted) + [old(batch)]
        && committed == old(committed) + (if commitOk(|old(attempted)|) then [old(batch)] else []))
    {
      if batch == [] {
        return;
      }
      FlattenAppend(attempted, [batch]);
      if commitOk(|attempted|) {
        committed := committed + [batch];
      }
      attempted := attempted + [batch];
      batch := [];
    }

    /** A message from the commit channel: append it, and commit once the batch reaches the batch size. */
    method Receive(m: Message)
      requires Valid()
      modifies this`batch, this`attempted, this`committed, this`received
      ensures Valid() && received == old(received) + [m]
      ensures |old(batch)| + 1 >= maxBatchSize ==> (batch == [] && attempted == old(attempted) + [old(batch) + [m]]
        && committed == old(committed) + (if commitOk(|old(attempted)|) then [old(batch) + [m]] else []))
      ensures |old(batch)| + 1 < maxBatchSize ==>
        (batch == old(batch) + [m] && attempted == old(attempted) && committed == old(committed))
    {
      received := received + [m];
      batch := batch + [m];
      if |batch| >= maxBatchSize {
        CommitBatch();
      }
    }

    /** A tick of the one-second ticker commits whatever is pending. */
    method Tick()
      requires Valid()
      modifies this`batch, this`attempted, this`committed
      ensures Valid() && batch == [] && received == old(received)
      ensures old(batch) != [] ==> attempted == old(attempted) + [old(batch)]
      ensures old(batch) == [] ==> attempted == old(attempted) && committed == old(committed)
    {
      CommitBatch();
    }

    /** On cancellation or when the commit channel closes, the pending batch is committed before the committer exits. */
    method Finish()
      requires Valid()
      modifies this`batch, this`attempted, this`committed
      ensures Valid() && batch == [] && received == old(received)
      ensures Flatten(attempted) == received
    {
      CommitBatch();
    }
  }

  /**
   * The consumer, run sequentially: each record read is processed by a worker, forwarded to
   * the committer when processMessage returns no error, and the committer finishes when the
   * records run out. Process calls are numbered across the whole run.
   */
  class Consumer {
    const decode: seq<byte> -> Result<CD.Event, string>
    const process: nat -> bool
    const maxRetries: int
    const retryBackoff: int
    const readerCloses: bool
    const committer: Committer
    var closed: bool
    var processCalls: nat

    ghost predicate Valid()
      reads this, committer
    {
      committer.Valid()
    }

    constructor(decode: seq<byte> -> Result<CD.Event, string>, process: nat -> bool, maxRetries: int,
                retryBackoff: int, batchSize: int, commitOk: nat -> bool, readerCloses: bool)
      ensures Valid() && fresh(committer) && !closed && processCalls == 0
      ensures committer.received == [] && committer.maxBatchSize == batchSize && committer.commitOk == commitOk
      ensures this.decode == decode && this.process == process && this.maxRetries == maxRetries
      ensures this.retryBackoff == retryBackoff && this.readerCloses == readerCloses
    {
      this.decode := decode;
      this.process := process;
      this.maxRetries := maxRetries;
      this.retryBackoff := retryBackoff;
      this.readerCloses := readerCloses;
      committer := new Committer(batchSize, commitOk);
      closed := false;
      processCalls := 0;
    }

    /** The outcome agrees with how the record decodes and validates. */
    ghost predicate Classified(m: Message, o: Outcome, now: int) {
      (o.ParseFailed? <==> decode(m.value).Err?)
      && (o.ValidationFailed? <==> (decode(m.value).Ok? && SD.Validate(decode(m.value).value, now).Some?))
    }

    /** A record that decodes to an event passing Validate against `now`: only such records are processed. */
    predicate Processable(m: Message, now: int) {
      decode(m.value).Ok? && SD.Validate(decode(m.value).value, now).None?
    }

    /** The retry run of a record whose process calls are numbered from `first`; none for a record that is not processable. */
    function RecordRun(m: Message, now: int, first: nat): Run {
      if Processable(m, now) then FirstSuccess(Shifted(process, first), 0, MaxAttempts(maxRetries)) else Run(0, false)
    }

    /** What processMessage makes of a record whose process calls are numbered from `first`. */
    function OutcomeOf(m: Message, now: int, first: nat): (o: Outcome)
      ensures o.ParseFailed? <==> decode(m.value).Err?
      ensures o.ValidationFailed? <==> decode(m.value).Ok? && SD.Validate(decode(m.value).value, now).Some?
      ensures o.ProcessingFailed? <==> Processable(m, now) && !RecordRun(m, now, first).succeeded
    {
      if decode(m.value).Err? then ParseFailed
      else
        var t := decode(m.value).value.eventType;
        if SD.Validate(decode(m.value).value, now).Some? then ValidationFailed(t)
        else if FirstSuccess(Shifted(process, first), 0, MaxAttempts(maxRetries)).succeeded then Processed(t)
        else ProcessingFailed(t)
    }

    /**
     * A record fails processing exactly when it is processable and every process call it is
     * allowed fails; it is processed exactly when it is processable and one of them can succeed.
     */
    lemma OutcomeOfRetries(m: Message, now: int, first: nat)
      ensures OutcomeOf(m, now, first).ProcessingFailed? <==>
        Processable(m, now) && forall k :: first <= k < first + MaxAttempts(maxRetries) ==> !process(k)
      ensures OutcomeOf(m, now, first).Processed? <==>
        Processable(m, now) && exists k :: first <= k < first + MaxAttempts(maxRetries) && process(k)
    {
      var ok := Shifted(process, first);
      var run := FirstSuccess(ok, 0, MaxAttempts(maxRetries));
      if Processable(m, now) {
        if run.succeeded {
          assert ok(run.attempts - 1);
          assert process(first + run.attempts - 1);
        } else {
          FailsOnlyWhenAllFail(ok, MaxAttempts(maxRetries));
          forall k | first <= k < first + MaxAttempts(maxRetries)
            ensures !process(k)
          {
            assert !ok(k - first);
          }
        }
      }
    }

    /** The outcomes of a run of records, process calls numbered on from `first`. */
    function Outcomes(records: seq<Message>, now: int, first: nat): (os: seq<Outcome>)
      ensures |os| == |records|
      decreases |records|
    {
      if records == [] then []
      else [OutcomeOf(records[0], now, first)] + Outcomes(records[1..], now, first + RecordRun(records[0], now, first).attempts)
    }

    /** The process calls a run of records makes. */
    function Calls(records: seq<Message>, now: int, first: nat): nat
      decreases |records|
    {
      if records == [] then 0
      else RecordRun(records[0], now, first).attempts + Calls(records[1..], now, first + RecordRun(records[0], now, first).attempts)
    }

    /** One more record judged: the outcomes and calls so far still make up those of the whole run. */
    lemma OutcomesAdvance(records: seq<Message>, now: int, i: nat, done: seq<Outcome>, pc: nat,
                          o: Outcome, pc': nat, all: seq<Outcome>, total: nat)
      requires i < |records|
      requires done + Outcomes(records[i..], now, pc) == all
      requires pc + Calls(records[i..], now, pc) == total
      requires o == OutcomeOf(records[i], now, pc) && pc' == pc + RecordRun(records[i], now, pc).attempts
      ensures (done + [o]) + Outcomes(records[i + 1..], now, pc') == all
      ensures pc' + Calls(records[i + 1..], now, pc') == total
    {
      assert records[i..][1..] == records[i + 1..];
      ConcatAssoc(done, [o], Outcomes(records[i + 1..], now, pc'));
    }

    /** Record i of a run is judged with its process calls numbered after those of the records before it. */
    lemma {:induction false} OutcomesAt(records: seq<Message>, now: int, first: nat, i: nat)
      requires i < |records|
      ensures Outcomes(records, now, first)[i] == OutcomeOf(records[i], now, first + Calls(records[..i], now, first))
      decreases i
    {
      if i > 0 {
        var next := first + RecordRun(records[0], now, first).attempts;
        OutcomesAt(records[1..], now, next, i - 1);
        assert records[..i][1..] == records[1..][..i - 1];
        assert records[..i][0] == records[0];
      }
    }

    /** One record through a worker: processMessage, then forwarding to the committer unless it returned an error. */
    method HandleRecord(m: Message, now: int) returns (outcome: Outcome)
      requires Valid()
      modifies this`processCalls, committer`batch, committer`attempted, committer`committed, committer`received
      ensures Valid() && Classified(m, outcome, now)
      ensures outcome == OutcomeOf(m, now, old(processCalls))
      ensures processCalls == old(processCalls) + RecordRun(m, now, old(processCalls)).attempts
      ensures committer.received == old(committer.received) + (if outcome.ProcessingFailed? then [] else [m])
    {
      var run, processErr;
      outcome, run, processErr := ProcessMessage(m, decode, now, process, processCalls, maxRetries, retryBackoff);
      processCalls := processCalls + run.attempts;
      if processErr.None? {
        committer.Receive(m);
      }
    }

    /** Every outcome of a run agrees with how its record decodes and validates. */
    lemma OutcomesClassified(records: seq<Message>, now: int, first: nat)
      ensures forall i :: 0 <= i < |records| ==> Classified(records[i], Outcomes(records, now, first)[i], now)
    {
      forall i | 0 <= i < |records|
        ensures Classified(records[i], Outcomes(records, now, first)[i], now)
      {
        OutcomesAt(records, now, first, i);
      }
    }

    /** The workers' loop over the records: each is handled in turn, process calls numbered on. */
    method HandleAll(records: seq<Message>, now: int) returns (outcomes: seq<Outcome>)
      requires Valid()
      modifies this`processCalls, committer`batch, committer`attempted, committer`committed, committer`received
      ensures Valid() && outcomes == Outcomes(records, now, old(processCalls))
      ensures processCalls == old(processCalls) + Calls(records, now, old(processCalls))
      ensures committer.received == old(committer.received) + Filter(records, Forwarded(outcomes))
    {
      outcomes := [];
      ghost var all, total := Outcomes(records, now, processCalls), processCalls + Calls(records, now, processCalls);
      var i := 0;
      while i < |records|
        invariant 0 <= i <= |records| && |outcomes| == i
        invariant Valid()
        invariant outcomes + Outcomes(records[i..], now, processCalls) == all
        invariant processCalls + Calls(records[i..], now, processCalls) == total
        invariant committer.received == old(committer.received) + Filter(records[..i], Forwarded(outcomes))
        modifies this`processCalls, committer`batch, committer`attempted, committer`committed, committer`received
      {
        ghost var pc := processCalls;
        var outcome := HandleRecord(records[i], now);
        OutcomesAdvance(records, now, i, outcomes, pc, outcome, processCalls, all, total);
        ForwardedStep(records, outcomes, outcome, i);
        ConcatAssoc(old(committer.received), Filter(records[..i], Forwarded(outcomes)),
          if outcome.ProcessingFailed? then [] else [records[i]]);
        outcomes := outcomes + [outcome];
        i := i + 1;
      }
      assert records[..i] == records;
      assert records[i..] == [];
    }

    /**
     * Start, over the records the reader delivers before it stops: a closed consumer reports
     * "consumer is closed"; otherwise every record is processed, with the outcomes Outcomes
     * gives, exactly the records whose processing did not fail reach the committer, in order,
     * and all of them are in commit attempts when it returns.
     */
    method Start(records: seq<Message>, now: int) returns (err: Option<string>, outcomes: seq<Outcome>)
      requires Valid()
      modifies this`processCalls, committer`batch, committer`attempted, committer`committed, committer`received
      ensures Valid()
      ensures old(closed) ==> err == Some("consumer is closed") && outcomes == [] && unchanged(this, committer)
      ensures !old(closed) ==> (err.None? && outcomes == Outcomes(records, now, old(processCalls))
        && processCalls == old(processCalls) + Calls(records, now, old(processCalls))
        && committer.received == old(committer.received) + Filter(records, Forwarded(outcomes))
        && committer.batch == [] && Flatten(committer.attempted) == committer.received)
      ensures forall i :: 0 <= i < |outcomes| ==> Classified(records[i], outcomes[i], now)
    {
      if closed {
        return Some("consumer is closed"), [];
      }
      OutcomesClassified(records, now, processCalls);
      outcomes := HandleAll(records, now);
      committer.Finish();
      err := None;
    }

    /** What closing the reader reports. */
    function CloseError(): Option<string> {
      if readerCloses then None else Some("failed to close kafka reader")
    }

    /**
     * Close: a second call returns nil and changes nothing. The first sets the closed flag and
     * waits for Start's goroutines while holding the write lock (LockedClose); `startRunning`
     * says whether a Start is running beside it and `startCancelled` whether its context has been
     * cancelled. The reader and the stats collector take the read lock on every turn, so a Close
     * made while Start runs may wait forever, whatever its context; otherwise the reader is closed.
     */
    method Close(startRunning: bool, startCancelled: bool) returns (exit: SH.Exit<Option<string>>)
      modifies this`closed
      ensures closed
      ensures old(closed) ==> exit == SH.Returns(None)
      ensures !old(closed) ==> exit == SH.ExitOf(SH.Run(SH.LockedClose(if startRunning then SH.ServiceGoroutines else {}),
        SH.Quiet.(cancelled := startCancelled)), CloseError())
      ensures !old(closed) && startRunning ==> exit == SH.Blocks
      ensures !old(closed) && !startRunning ==> exit == SH.Returns(CloseError())
    {
      if closed {
        return SH.Returns(None);
      }
      closed := true;
      var counted := if startRunning then SH.ServiceGoroutines else {};
      var s := SH.Quiet.(cancelled := startCancelled);
      if startRunning {
        SH.LockedCloseBlocks(counted, s);
      } else {
        SH.LockedCloseNothing(s);
      }
      exit := SH.ExitOf(SH.Run(SH.LockedClose(counted), s), CloseError());
    }

    /**
     * Close with the lock released before the wait (UnlockedClose): the reader, the workers and
     * the stats collector see the flag and leave, so the first call returns exactly when no Start
     * runs or its context has been cancelled, and then reports the reader's close error.
     */
    method CloseUnlocked(startRunning: bool, startCancelled: bool) returns (exit: SH.Exit<Option<string>>)
      modifies this`closed
      ensures closed
      ensures old(closed) ==> exit == SH.Returns(None)
      ensures !old(closed) ==> exit == SH.ExitOf(SH.Run(SH.UnlockedClose(if startRunning then SH.ServiceGoroutines else {}),
        SH.Quiet.(cancelled := startCancelled)), CloseError())
      ensures !old(closed) ==> (exit.Returns? <==> !startRunning || startCancelled)
      ensures !old(closed) && exit.Returns? ==> exit.value == CloseError()
    {
      if closed {
        return SH.Returns(None);
      }
      closed := true;
      var counted := if startRunning then SH.ServiceGoroutines else {};
      var s := SH.Quiet.(cancelled := startCancelled);
      if startRunning {
        SH.UnlockedCloseReturns(s);
      } else {
        SH.UnlockedCloseNothing(s);
      }
      exit := SH.ExitOf(SH.Run(SH.UnlockedClose(counted), s), CloseError());
    }
  }
}
