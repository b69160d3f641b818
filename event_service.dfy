// The producer service's event use case: create an event, publish it, and keep the number of
// published events, per type and in total, and the number of failed requests.
module ProducerUseCase {
  import opened Wrappers
  import opened Seqs
  import opened LogFields
  import P = Producer

  const UserCreated: string := "user_created"
  const OrderPlaced: string := "order_placed"
  const PaymentProcessed: string := "payment_processed"

  /** EventStats as GetEventStats reports it; the last event time is left unformatted. */
  datatype EventStats = EventStats(totalEvents: nat, eventsByType: map<string, nat>, lastEventTime: Option<int>, errorCount: nat, successRate: real)

  /** The per-type counters built from the published events, in order. */
  function TypeCounts(es: seq<P.Event>): map<string, nat> {
    if es == [] then map[] else Bump(TypeCounts(es[..|es| - 1]), es[|es| - 1].eventType)
  }

  /** The number of events of type t. */
  function CountType(es: seq<P.Event>, t: string): (n: nat)
    ensures n <= |es|
  {
    if es == [] then 0 else CountType(es[..|es| - 1], t) + (if es[|es| - 1].eventType == t then 1 else 0)
  }

  /** The per-type counters hold a key exactly for the types published, with their numbers. */
  lemma {:induction false} TypeCountsCount(es: seq<P.Event>, t: string)
    ensures t in TypeCounts(es) <==> CountType(es, t) > 0
    ensures t in TypeCounts(es) ==> TypeCounts(es)[t] == CountType(es, t)
  {
    if es != [] {
      TypeCountsCount(es[..|es| - 1], t);
    }
  }

  /**
   * The success rate as GetEventStats computes it: (TotalEvents - ErrorCount) / TotalEvents * 100,
   * 0 while nothing was published. TotalEvents counts published events only.
   */
  function SuccessRateAsWritten(total: nat, errors: nat): (r: real)
    ensures total == 0 ==> r == 0.0
    ensures total > 0 ==> r * total as real == (total - errors) as real * 100.0
    ensures r <= 100.0 && (r == 100.0 <==> total > 0 && errors == 0)
    ensures r < 0.0 <==> total > 0 && errors > total
  {
    if total > 0 then
      var share := (total - errors) as real / total as real;
      assert share * total as real == (total - errors) as real;
      assert share <= 1.0 && (share == 1.0 <==> errors == 0) && (share < 0.0 <==> errors > total) by {
        assert share * total as real <= total as real;
      }
      share * 100.0
    else 0.0
  }

  /** One published event and two failed requests give a success rate of -100 percent. */
  lemma SuccessRateAsWrittenNegative()
    ensures SuccessRateAsWritten(1, 2) == -100.0
  {
  }

  /** The share of requests that ended published, in percent; 0 before anything was published. */
  function SuccessRate(total: nat, errors: nat): (r: real)
    ensures total + errors > 0 ==> r * (total + errors) as real == total as real * 100.0
    ensures total + errors == 0 ==> r == 0.0
    ensures 0.0 <= r <= 100.0
    ensures total == 0 ==> r == 0.0
    ensures r == 100.0 <==> total > 0 && errors == 0
  {
    if total + errors > 0 then
      var share := total as real / (total + errors) as real;
      assert share <= 1.0 by {
        assert total as real <= (total + errors) as real;
      }
      assert share == 1.0 <==> errors == 0 by {
        assert share * (total + errors) as real == total as real;
      }
      share * 100.0
    else 0.0
  }

  /** Each further failure lowers the success rate unless nothing was published. */
  lemma SuccessRateFallsWithErrors(total: nat, errors: nat)
    requires total > 0
    ensures SuccessRate(total, errors + 1) < SuccessRate(total, errors)
  {
    var a := (total + errors) as real;
    var b := (total + errors + 1) as real;
    assert total as real / b < total as real / a by {
      assert 0.0 < a < b;
      assert (total as real / b) * b == total as real;
      assert (total as real / a) * a == total as real;
    }
  }

  /** The service's logrus adapter, over a base logger identified by a number. */
  datatype Adapter = Adapter(logger: nat)

  /** WithField: an adapter over the entry's base logger, which drops the entry and its field. */
  function WithField(a: Adapter, key: string, value: Value): Adapter
  {
    Adapter(a.logger)
  }

  /** WithFields: likewise an adapter over the base logger. */
  function WithFields(a: Adapter, fs: map<string, Value>): Adapter
  {
    Adapter(a.logger)
  }

  /** Debug, Info, Warn and Error: a line carrying only the call's own key/value arguments. */
  function Emitted(a: Adapter, level: Level, msg: string, args: seq<Value>): Record
  {
    Record(level, msg, Parsed(args))
  }

  /**
   * fieldsToLogrus: the same stepping loop as the consumer's parseFields, with an extra bound test
   * on the value that the loop condition already guarantees.
   */
  method FieldsToLogrus(fields: seq<Value>) returns (m: map<string, Value>)
    ensures m == Parsed(fields)
  {
    m := map[];
    var i := 0;
    while i < |fields| - 1
      invariant 0 <= i <= |fields| && i % 2 == 0
      invariant m == PairsUpTo(fields, i / 2)
    {
      if fields[i].Str? && i + 1 < |fields| {
        m := m[fields[i].s := fields[i + 1]];
      }
      i := i + 2;
    }
  }

  /** Fields added with WithField or WithFields never reach a logged line. */
  lemma AddedFieldsDiscarded(a: Adapter, key: string, value: Value, fs: map<string, Value>, level: Level, msg: string, args: seq<Value>)
    ensures Emitted(WithFields(WithField(a, key, value), fs), level, msg, args) == Emitted(a, level, msg, args)
    ensures key !in Parsed(args) ==> key !in Emitted(WithField(a, key, value), level, msg, args).fields
  {
  }

  class EventService {
    /** The domain package's NewEvent, which is not part of this model: an event or its error. */
    const newEvent: (string, string) -> Result<P.Event, string>
    /** The error of the publisher's Publish call number n; None when that call succeeds. */
    const publish: nat -> Option<string>

    var totalEvents: nat
    var eventsByType: map<string, nat>
    var errorCount: nat
    var lastEventTime: Option<int>
    /** Publish calls made so far. */
    var publishCalls: nat
    /** The events published, in order. */
    ghost var published: seq<P.Event>
    /** CreateAndPublish and CreateAndPublishJSON calls so far. */
    ghost var requests: nat

    /** The totals count the published events, and every request was counted once. */
    ghost predicate Valid()
      reads this
    {
      totalEvents == |published| && eventsByType == TypeCounts(published)
      && totalEvents + errorCount == requests
    }

    constructor (newEvent: (string, string) -> Result<P.Event, string>, publish: nat -> Option<string>)
      ensures Valid()
      ensures this.newEvent == newEvent && this.publish == publish
      ensures totalEvents == 0 && errorCount == 0 && eventsByType == map[] && lastEventTime == None
      ensures publishCalls == 0 && published == [] && requests == 0
    {
      this.newEvent := newEvent;
      this.publish := publish;
      totalEvents := 0;
      eventsByType := map[];
      errorCount := 0;
      lastEventTime := None;
      publishCalls := 0;
      published := [];
      requests := 0;
    }

    /** A request that failed: one more error, the published totals untouched. */
    twostate predicate CountedAsError()
      reads this
    {
      errorCount == old(errorCount) + 1 && totalEvents == old(totalEvents)
      && eventsByType == old(eventsByType) && lastEventTime == old(lastEventTime)
      && published == old(published)
    }

    /** What CreateAndPublish(eventType, data) does, `now` being the clock at updateStats. */
    twostate predicate Served(eventType: string, data: string, now: int, new r: Result<P.Event, string>)
      reads this
    {
      requests == old(requests) + 1
      && match newEvent(eventType, data)
        case Err(cause) =>
          r == Err("failed to create event: " + cause) && publishCalls == old(publishCalls) && CountedAsError()
        case Ok(e) =>
          publishCalls == old(publishCalls) + 1
          && match publish(old(publishCalls))
            case Some(cause) => r == Err("failed to publish event: " + cause) && CountedAsError()
            case None =>
              r == Ok(e) && totalEvents == old(totalEvents) + 1 && errorCount == old(errorCount)
              && eventsByType == Bump(old(eventsByType), e.eventType) && lastEventTime == Some(now)
              && published == old(published) + [e]
    }

    /** updateStats. */
    method UpdateStats(e: P.Event, now: int)
      modifies this`totalEvents, this`eventsByType, this`lastEventTime, this`published
      ensures totalEvents == old(totalEvents) + 1 && eventsByType == Bump(old(eventsByType), e.eventType)
      ensures lastEventTime == Some(now) && published == old(published) + [e]
    {
      totalEvents := totalEvents + 1;
      eventsByType := Bump(eventsByType, e.eventType);
      lastEventTime := Some(now);
      published := published + [e];
    }

    /** incrementErrorCount. */
    method IncrementErrorCount()
      modifies this`errorCount
      ensures errorCount == old(errorCount) + 1
    {
      errorCount := errorCount + 1;
    }

    method CreateAndPublish(eventType: string, data: string, now: int) returns (r: Result<P.Event, string>)
      requires Valid()
      modifies this`totalEvents, this`eventsByType, this`errorCount, this`lastEventTime, this`publishCalls
      modifies this`published, this`requests
      ensures Valid() && Served(eventType, data, now, r)
      ensures totalEvents + errorCount == old(totalEvents + errorCount) + 1
    {
      requests := requests + 1;
      var created := newEvent(eventType, data);
      if created.Err? {
        IncrementErrorCount();
        return Err("failed to create event: " + created.error);
      }
      var e := created.value;
      var failure := publish(publishCalls);
      publishCalls := publishCalls + 1;
      if failure.Some? {
        IncrementErrorCount();
        return Err("failed to publish event: " + failure.value);
      }
      UpdateStats(e, now);
      r := Ok(e);
    }

    /**
     * CreateAndPublishJSON, given the outcome of marshalling its data (encoding/json is not part of
     * this model): a marshalling error is counted and returned, JSON text goes to CreateAndPublish.
     */
    method CreateAndPublishJSON(eventType: string, marshalled: Result<string, string>, now: int) returns (r: Result<P.Event, string>)
      requires Valid()
      modifies this`totalEvents, this`eventsByType, this`errorCount, this`lastEventTime, this`publishCalls
      modifies this`published, this`requests
      ensures Valid()
      ensures marshalled.Err? ==>
        r == Err("failed to marshal data to JSON: " + marshalled.error) && requests == old(requests) + 1
        && publishCalls == old(publishCalls) && CountedAsError()
      ensures marshalled.Ok? ==> Served(eventType, marshalled.value, now, r)
      ensures totalEvents + errorCount == old(totalEvents + errorCount) + 1
    {
      if marshalled.Err? {
        requests := requests + 1;
        IncrementErrorCount();
        return Err("failed to marshal data to JSON: " + marshalled.error);
      }
      r := CreateAndPublish(eventType, marshalled.value, now);
    }

    method CreateUserEvent(data: string, now: int) returns (r: Result<P.Event, string>)
      requires Valid()
      modifies this`totalEvents, this`eventsByType, this`errorCount, this`lastEventTime, this`publishCalls
      modifies this`published, this`requests
      ensures Valid() && Served(UserCreated, data, now, r)
    {
      r := CreateAndPublish(UserCreated, data, now);
    }

    method CreateOrderEvent(data: string, now: int) returns (r: Result<P.Event, string>)
      requires Valid()
      modifies this`totalEvents, this`eventsByType, this`errorCount, this`lastEventTime, this`publishCalls
      modifies this`published, this`requests
      ensures Valid() && Served(OrderPlaced, data, now, r)
    {
      r := CreateAndPublish(OrderPlaced, data, now);
    }

    method CreatePaymentEvent(data: string, now: int) returns (r: Result<P.Event, string>)
      requires Valid()
      modifies this`totalEvents, this`eventsByType, this`errorCount, this`lastEventTime, this`publishCalls
      modifies this`published, this`requests
      ensures Valid() && Served(PaymentProcessed, data, now, r)
    {
      r := CreateAndPublish(PaymentProcessed, data, now);
    }

    method CreateUserEventJSON(marshalled: Result<string, string>, now: int) returns (r: Result<P.Event, string>)
      requires Valid()
      modifies this`totalEvents, this`eventsByType, this`errorCount, this`lastEventTime, this`publishCalls
      modifies this`published, this`requests
      ensures Valid()
      ensures marshalled.Ok? ==> Served(UserCreated, marshalled.value, now, r)
      ensures marshalled.Err? ==> r == Err("failed to marshal data to JSON: " + marshalled.error) && CountedAsError()
    {
      r := CreateAndPublishJSON(UserCreated, marshalled, now);
    }

    method CreateOrderEventJSON(marshalled: Result<string, string>, now: int) returns (r: Result<P.Event, string>)
      requires Valid()
      modifies this`totalEvents, this`eventsByType, this`errorCount, this`lastEventTime, this`publishCalls
      modifies this`published, this`requests
      ensures Valid()
      ensures marshalled.Ok? ==> Served(OrderPlaced, marshalled.value, now, r)
      ensures marshalled.Err? ==> r == Err("failed to marshal data to JSON: " + marshalled.error) && CountedAsError()
    {
      r := CreateAndPublishJSON(OrderPlaced, marshalled, now);
    }

    method CreatePaymentEventJSON(marshalled: Result<string, string>, now: int) returns (r: Result<P.Event, string>)
      requires Valid()
      modifies this`totalEvents, this`eventsByType, this`errorCount, this`lastEventTime, this`publishCalls
      modifies this`published, this`requests
      ensures Valid()
      ensures marshalled.Ok? ==> Served(PaymentProcessed, marshalled.value, now, r)
      ensures marshalled.Err? ==> r == Err("failed to marshal data to JSON: " + marshalled.error) && CountedAsError()
    {
      r := CreateAndPublishJSON(PaymentProcessed, marshalled, now);
    }

    /**
     * GetEventStats: the totals, the per-type counts of the published events, and the success
     * rate as the source computes it, (published - failed) / published in percent, 0 before the
     * first published event; it is at most 100 and goes negative once failures outnumber
     * publications (see SuccessRate for the share of requests that were published).
     */
    method GetEventStats() returns (s: EventStats)
      requires Valid()
      ensures s.totalEvents == totalEvents && s.errorCount == errorCount && s.lastEventTime == lastEventTime
      ensures s.eventsByType == TypeCounts(published)
      ensures totalEvents == 0 ==> s.successRate == 0.0
      ensures totalEvents > 0 ==> s.successRate * totalEvents as real == (totalEvents - errorCount) as real * 100.0
      ensures s.successRate <= 100.0 && (s.successRate == 100.0 <==> totalEvents > 0 && errorCount == 0)
      ensures s.successRate < 0.0 <==> totalEvents > 0 && errorCount > totalEvents
    {
      var rate := SuccessRateAsWritten(totalEvents, errorCount);
      s := EventStats(totalEvents, eventsByType, lastEventTime, errorCount, rate);
    }
  }
}
