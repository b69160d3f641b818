// Trace context carried in Kafka message headers: the instrumented writer appends the current
// span's ids to every outgoing message, and the instrumented reader looks for them again.
module TraceContext {
  import opened Wrappers
  import opened Broker

  const TraceIdKey: string := "trace-id"
  const SpanIdKey: string := "span-id"

  /** The writer span's ids in their text form, and whether the span context is valid. */
  datatype SpanContext = SpanContext(traceId: string, spanId: string, valid: bool)

  /** A message's headers, a nil slice read as empty. */
  function HeadersOf(m: Message): seq<Header> {
    match m.headers
    case None => []
    case Some(hs) => hs
  }

  /** The two headers a valid span context contributes, trace-id first. */
  function TraceHeaders(span: SpanContext): (r: seq<Header>)
    ensures span.valid ==> r == [Header(TraceIdKey, span.traceId), Header(SpanIdKey, span.spanId)]
    ensures !span.valid ==> r == []
  {
    if span.valid then [Header(TraceIdKey, span.traceId), Header(SpanIdKey, span.spanId)] else []
  }

  /**
   * One message after the writer's injection step: a nil header slice becomes an empty one, and
   * with a valid span the two trace headers follow the existing headers. Key, value and time stay.
   */
  function Injected(m: Message, span: SpanContext): (r: Message)
    ensures r.key == m.key && r.value == m.value && r.time == m.time
    ensures r.headers.Some?
    ensures span.valid ==> |HeadersOf(r)| == |HeadersOf(m)| + 2
    ensures span.valid ==> HeadersOf(r)[..|HeadersOf(m)|] == HeadersOf(m)
    ensures span.valid ==> HeadersOf(r)[|HeadersOf(m)|] == Header("trace-id", span.traceId)
    ensures span.valid ==> HeadersOf(r)[|HeadersOf(m)| + 1] == Header("span-id", span.spanId)
    ensures !span.valid ==> HeadersOf(r) == HeadersOf(m)
    ensures !span.valid && m.headers.Some? ==> r == m
  {
    m.(headers := Some(HeadersOf(m) + TraceHeaders(span)))
  }

  /**
   * The header-injection loop of InstrumentedWriter.WriteMessages, rewriting each message of the
   * batch in place; the batch keeps its length and order.
   */
  method InjectTraceHeaders(msgs: array<Message>, span: SpanContext)
    modifies msgs
    ensures forall i :: 0 <= i < msgs.Length ==> msgs[i] == Injected(old(msgs[i]), span)
  {
    for i := 0 to msgs.Length
      invariant forall j :: 0 <= j < i ==> msgs[j] == Injected(old(msgs[j]), span)
      invariant forall j :: i <= j < msgs.Length ==> msgs[j] == old(msgs[j])
    {
      var m := msgs[i];
      if m.headers.None? {
        m := m.(headers := Some([]));
      }
      if span.valid {
        m := m.(headers := Some(m.headers.value + [Header(TraceIdKey, span.traceId)]));
        m := m.(headers := Some(m.headers.value + [Header(SpanIdKey, span.spanId)]));
      }
      assert m.headers.value == HeadersOf(msgs[i]) + TraceHeaders(span);
      msgs[i] := m;
    }
  }

  /** The value of the last header with this key, "" when there is none (the loop's final local). */
  function Last(hs: seq<Header>, key: string): string {
    if |hs| == 0 then ""
    else if hs[|hs| - 1].key == key then hs[|hs| - 1].value
    else Last(hs[..|hs| - 1], key)
  }

  /** extractTraceContext's test: the last trace-id and the last span-id are both non-empty. */
  predicate HasTraceContext(hs: seq<Header>) {
    Last(hs, TraceIdKey) != "" && Last(hs, SpanIdKey) != ""
  }

  /**
   * extractTraceContext: one pass over the headers remembering the latest trace-id and span-id;
   * the result is non-nil (here `true`) exactly when both are non-empty.
   */
  method ExtractTraceContext(headers: seq<Header>) returns (found: bool)
    ensures found <==> HasTraceContext(headers)
  {
    var traceId, spanId := "", "";
    for i := 0 to |headers|
      invariant traceId == Last(headers[..i], TraceIdKey)
      invariant spanId == Last(headers[..i], SpanIdKey)
    {
      assert headers[..i + 1][..i] == headers[..i];
      if headers[i].key == TraceIdKey {
        traceId := headers[i].value;
      } else if headers[i].key == SpanIdKey {
        spanId := headers[i].value;
      }
    }
    assert headers[..|headers|] == headers;
    found := traceId != "" && spanId != "";
  }

  /** Last is determined by the headers after the last one carrying the key. */
  lemma LastAppendOne(hs: seq<Header>, h: Header, key: string)
    ensures Last(hs + [h], key) == if h.key == key then h.value else Last(hs, key)
  {
    assert (hs + [h])[..|hs|] == hs;
  }

  /** Headers that do not carry the key, appended after the others, change nothing. */
  lemma {:induction false} LastSkipsOthers(hs: seq<Header>, others: seq<Header>, key: string)
    requires forall i :: 0 <= i < |others| ==> others[i].key != key
    ensures Last(hs + others, key) == Last(hs, key)
  {
    if |others| == 0 {
      assert hs + others == hs;
    } else {
      var init := others[..|others| - 1];
      assert hs + others == (hs + init) + [others[|others| - 1]];
      LastAppendOne(hs + init, others[|others| - 1], key);
      LastSkipsOthers(hs, init, key);
    }
  }

  /** A later header with the key overrides all earlier ones. */
  lemma LastOverrides(before: seq<Header>, value: string, after: seq<Header>, key: string)
    requires forall i :: 0 <= i < |after| ==> after[i].key != key
    ensures Last(before + [Header(key, value)] + after, key) == value
  {
    LastSkipsOthers(before + [Header(key, value)], after, key);
    LastAppendOne(before, Header(key, value), key);
  }

  /** Headers with other keys, inserted anywhere, do not change what is extracted. */
  lemma {:induction false} LastIgnoresOthers(a: seq<Header>, others: seq<Header>, b: seq<Header>, key: string)
    requires forall i :: 0 <= i < |others| ==> others[i].key != key
    ensures Last(a + others + b, key) == Last(a + b, key)
  {
    if |b| == 0 {
      assert a + others + b == a + others;
      assert a + b == a;
      LastSkipsOthers(a, others, key);
    } else {
      var init := b[..|b| - 1];
      var h := b[|b| - 1];
      assert a + others + b == (a + others + init) + [h];
      assert a + b == (a + init) + [h];
      LastAppendOne(a + others + init, h, key);
      LastAppendOne(a + init, h, key);
      LastIgnoresOthers(a, others, init, key);
    }
  }

  /** Hence extractTraceContext's verdict ignores headers with any other key. */
  lemma HasTraceContextIgnoresOthers(a: seq<Header>, others: seq<Header>, b: seq<Header>)
    requires forall i :: 0 <= i < |others| ==> others[i].key != TraceIdKey && others[i].key != SpanIdKey
    ensures HasTraceContext(a + others + b) <==> HasTraceContext(a + b)
  {
    LastIgnoresOthers(a, others, b, TraceIdKey);
    LastIgnoresOthers(a, others, b, SpanIdKey);
  }

  /**
   * Round trip: after injection with a valid span, the reader finds exactly the writer's ids,
   * whatever stale trace headers the message carried before; with non-empty ids it finds a context.
   */
  lemma InjectedExtracted(m: Message, span: SpanContext)
    requires span.valid
    ensures Last(HeadersOf(Injected(m, span)), TraceIdKey) == span.traceId
    ensures Last(HeadersOf(Injected(m, span)), SpanIdKey) == span.spanId
    ensures span.traceId != "" && span.spanId != "" ==> HasTraceContext(HeadersOf(Injected(m, span)))
  {
    var hs := HeadersOf(m);
    assert HeadersOf(Injected(m, span)) == hs + [Header(TraceIdKey, span.traceId)] + [Header(SpanIdKey, span.spanId)];
    LastOverrides(hs, span.traceId, [Header(SpanIdKey, span.spanId)], TraceIdKey);
    LastOverrides(hs + [Header(TraceIdKey, span.traceId)], span.spanId, [], SpanIdKey);
    assert hs + [Header(TraceIdKey, span.traceId)] + [Header(SpanIdKey, span.spanId)] + []
      == hs + [Header(TraceIdKey, span.traceId)] + [Header(SpanIdKey, span.spanId)];
  }

  /** With an invalid span the reader sees what the message already carried. */
  lemma InvalidSpanKeepsContext(m: Message, span: SpanContext)
    requires !span.valid
    ensures HasTraceContext(HeadersOf(Injected(m, span))) == HasTraceContext(HeadersOf(m))
  {
  }

  /** Every message of one batch carries the same ids after injection. */
  lemma SameIdsInBatch(batch: seq<Message>, span: SpanContext, i: nat, j: nat)
    requires span.valid && i < |batch| && j < |batch|
    ensures Last(HeadersOf(Injected(batch[i], span)), TraceIdKey) == Last(HeadersOf(Injected(batch[j], span)), TraceIdKey)
    ensures Last(HeadersOf(Injected(batch[i], span)), SpanIdKey) == Last(HeadersOf(Injected(batch[j], span)), SpanIdKey)
  {
    InjectedExtracted(batch[i], span);
    InjectedExtracted(batch[j], span);
  }
}
