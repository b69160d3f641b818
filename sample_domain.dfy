// The sample application's domain package: a smaller event without version or source, a
// validation that only checks for empty fields, and event creation that cannot fail.
module SampleDomain {
  import opened Wrappers
  import opened EventIds

  const UserCreated: string := "user_created"
  const OrderPlaced: string := "order_placed"
  const PaymentProcessed: string := "payment_processed"

  datatype Event = Event(id: string, eventType: string, data: string, timestamp: int)

  /** Event.Validate: the first of ID, type, data and timestamp that is empty (or zero) is reported. */
  function Validate(e: Event): (r: Option<string>)
    ensures r.None? <==> e.id != "" && e.eventType != "" && e.data != "" && e.timestamp != 0
    ensures r == Some("event ID cannot be empty") <==> e.id == ""
    ensures r == Some("event type cannot be empty") <==> e.id != "" && e.eventType == ""
    ensures r == Some("event data cannot be empty") <==> e.id != "" && e.eventType != "" && e.data == ""
    ensures r == Some("event timestamp cannot be zero") <==>
      (e.id != "" && e.eventType != "" && e.data != "" && e.timestamp == 0)
  {
    if e.id == "" then Some("event ID cannot be empty")
    else if e.eventType == "" then Some("event type cannot be empty")
    else if e.data == "" then Some("event data cannot be empty")
    else if e.timestamp == 0 then Some("event timestamp cannot be zero")
    else None
  }

  /** NewEvent: a generated ID, the given type and data, and the clock reading `stamp`. */
  method NewEvent(eventType: string, data: string, idClock: Clock, stamp: int, rnd: Entropy) returns (e: Event)
    ensures e.eventType == eventType && e.data == data && e.timestamp == stamp
    ensures |e.id| == |eventType| + |CompactTimestamp(idClock.civil)| + 2 + SuffixLength
    ensures e.id == FormatEventId(eventType, CompactTimestamp(idClock.civil), e.id[|e.id| - SuffixLength..])
    ensures forall i :: |e.id| - SuffixLength <= i < |e.id| ==> e.id[i] in Charset
  {
    var id := GenerateEventId(eventType, idClock, rnd);
    e := Event(id, eventType, data, stamp);
  }

  /** A generated ID is never empty, so a new event of a non-empty type validates exactly when its data is non-empty. */
  lemma NewEventValidates(e: Event, eventType: string, data: string, idClock: Clock, stamp: int)
    requires eventType != "" && stamp != 0
    requires e.eventType == eventType && e.data == data && e.timestamp == stamp
    requires |e.id| == |eventType| + |CompactTimestamp(idClock.civil)| + 2 + SuffixLength
    ensures Validate(e).None? <==> data != ""
    ensures data == "" ==> Validate(e) == Some("event data cannot be empty")
  {
  }
}
