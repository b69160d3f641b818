// The consumer service's domain package. Its Event struct, tags, sentinel errors and Clone are
// those of the consumer application's package; it knows one event type, rejects timestamps
// more than a minute ahead of the clock, and creates events itself.
module ServiceDomain {
  import opened Wrappers
  import opened Text
  import opened EventIds
  import CD = ConsumerDomain

  const UserCreated: string := "user_created"
  const Version: string := "1.0"
  const Source: string := "producer-service"
  /** time.Minute in nanoseconds. */
  const Minute: int := 60_000_000_000

  predicate IsValid(t: string) {
    t == UserCreated
  }

  /**
   * Event.Validate, with `now` the clock reading it takes: the checks of the consumer
   * application in the same order, then a timestamp later than now plus one minute fails.
   */
  function Validate(e: CD.Event, now: int): (r: Option<CD.DomainError>)
    ensures r.None? <==>
      (CD.StructurallyValid(e) && IsValid(e.eventType) && Utf8Len(e.data) <= CD.MaxEventDataLength && e.timestamp <= now + Minute)
    ensures r == Some(CD.EventValidationFailed) <==> !CD.StructurallyValid(e)
    ensures r == Some(CD.InvalidTimestamp(true)) <==>
      (CD.StructurallyValid(e) && IsValid(e.eventType) && Utf8Len(e.data) <= CD.MaxEventDataLength && e.timestamp > now + Minute)
    ensures r.Some? ==> !r.value.InvalidEventData? && r.value != CD.InvalidTimestamp(false)
  {
    Utf8LenBounds(e.data);
    if !CD.StructurallyValid(e) then Some(CD.EventValidationFailed)
    else if !IsValid(e.eventType) then Some(CD.InvalidEventType(e.eventType))
    else if Utf8Len(e.data) > CD.MaxEventDataLength then Some(CD.EventDataTooLong(Utf8Len(e.data)))
    else if Utf8Len(e.data) < CD.MinEventDataLength then Some(CD.InvalidEventData(Utf8Len(e.data)))
    else if e.timestamp == 0 then Some(CD.InvalidTimestamp(false))
    else if e.timestamp > now + Minute then Some(CD.InvalidTimestamp(true))
    else None
  }

  /** The service accepts only user_created, which the consumer application also accepts. */
  lemma ValidImpliesConsumerValid(e: CD.Event, now: int)
    requires Validate(e, now).None?
    ensures CD.Validate(e).None?
  {
  }

  /** FromJSON here does not validate: it returns whatever json.Unmarshal decoded. */
  function FromJSON(decoded: Result<CD.Event, string>): (r: Result<CD.Event, string>)
    ensures r.Ok? <==> decoded.Ok?
    ensures r.Ok? ==> r.value == decoded.value
    ensures r.Err? ==> r.error == "failed to unmarshal event: " + decoded.error
  {
    match decoded
    case Ok(e) => Ok(e)
    case Err(cause) => Err("failed to unmarshal event: " + cause)
  }

  /** An event no validation accepts still comes out of FromJSON. */
  lemma FromJSONAcceptsInvalid()
    ensures var e := CD.Event("", "", "", 0, "", "");
      FromJSON(Ok(e)) == Ok(e) && Validate(e, 0).Some? && CD.FromJSON(Ok(e)).Err?
  {
  }

  /**
   * NewEvent: an event with a generated ID, version "1.0", source "producer-service" and the
   * timestamp `stamp` (time.Now().UTC() when it is built), validated against the later
   * reading `now`; the ID's clock reading is `idClock`. It fails exactly when Validate does,
   * and a generated ID is never empty.
   */
  method NewEvent(eventType: string, data: string, idClock: Clock, stamp: int, now: int, rnd: Entropy)
    returns (r: Result<CD.Event, CD.DomainError>)
    ensures r.Ok? <==>
      (IsValid(eventType) && 1 <= |data| && Utf8Len(data) <= CD.MaxEventDataLength && stamp != 0 && stamp <= now + Minute)
    ensures r.Ok? ==> (r.value.eventType == eventType && r.value.data == data && r.value.timestamp == stamp
      && r.value.version == Version && r.value.source == Source)
    ensures r.Ok? ==> (var id := r.value.id;
      |id| == |eventType| + |CompactTimestamp(idClock.civil)| + 2 + SuffixLength
      && id == FormatEventId(eventType, CompactTimestamp(idClock.civil), id[|id| - SuffixLength..]))
    ensures r.Err? ==> (r.error == CD.EventValidationFailed <==>
      !(eventType != "" && 1 <= |data| <= CD.MaxEventDataLength && stamp != 0))
  {
    var id := GenerateEventId(eventType, idClock, rnd);
    var e := CD.Event(id, eventType, data, stamp, Version, Source);
    Utf8LenBounds(data);
    var v := Validate(e, now);
    if v.Some? {
      return Err(v.value);
    }
    return Ok(e);
  }

  /** "failed to create event: " and the sentinel of the validation failure. */
  function NewEventErrorText(err: CD.DomainError): string {
    "failed to create event: " + CD.Sentinel(err)
  }

  /** IsValidEventType: lower-cases but does not trim, so it accepts exactly the case variants of user_created. */
  predicate IsValidEventType(s: string)
    ensures IsValidEventType(s) <==> CD.CaseVariant(s, UserCreated)
  {
    assert CD.CaseVariant(s, UserCreated) ==> ToLower(s) == UserCreated;
    IsValid(ToLower(s))
  }

  /** Unlike the consumer application's check, a padded name is rejected here. */
  lemma PaddedTypeRejected()
    ensures !IsValidEventType(" " + UserCreated)
    ensures CD.IsValidEventType(" " + UserCreated)
  {
    assert |" " + UserCreated| != |UserCreated|;
    CD.EventTypeFromPaddedString(" ", UserCreated, "", UserCreated);
    assert " " + UserCreated + "" == " " + UserCreated;
  }
}
