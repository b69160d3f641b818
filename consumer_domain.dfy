// The consumer application's domain package: event types, events, their validation and the
// conversions from JSON and from free-form type names.
module ConsumerDomain {
  import opened Wrappers
  import opened Text

  const MaxEventDataLength: nat := 10000
  const MinEventDataLength: nat := 1

  const UserCreated: string := "user_created"
  const OrderPlaced: string := "order_placed"
  const PaymentProcessed: string := "payment_processed"

  /** EventType.IsValid: one of the three known types. */
  predicate IsValid(t: string) {
    t == UserCreated || t == OrderPlaced || t == PaymentProcessed
  }

  /** GetAllEventTypes: exactly the valid types, each once. */
  function AllEventTypes(): (r: seq<string>)
    ensures |r| == 3
    ensures forall t :: t in r <==> IsValid(t)
    ensures forall i, j :: 0 <= i < j < |r| ==> r[i] != r[j]
  {
    [UserCreated, OrderPlaced, PaymentProcessed]
  }

  /** An event; the timestamp is in nanoseconds, 0 being Go's zero time. */
  datatype Event = Event(id: string, eventType: string, data: string, timestamp: int, version: string, source: string)

  /** ProcessingResult, without its times. */
  datatype ProcessingResult = ProcessingResult(eventId: string, eventType: string, success: bool, error: string)

  /** The wrapped sentinel error each failure is identified by (errors.Is). */
  datatype DomainError =
    | EventValidationFailed
    | InvalidEventType(eventType: string)
    | EventDataTooLong(length: nat)
    | InvalidEventData(length: nat)
    | InvalidTimestamp(future: bool)

  function Sentinel(err: DomainError): string {
    match err
    case EventValidationFailed => "event validation failed"
    case InvalidEventType(_) => "invalid event type"
    case EventDataTooLong(_) => "event data is too long"
    case InvalidEventData(_) => "event data cannot be empty"
    case InvalidTimestamp(_) => "invalid timestamp"
  }

  /**
   * The struct tags: id non-empty, type non-empty, data of 1 to 10000 characters (the
   * validator counts runes), timestamp not the zero time.
   */
  predicate StructurallyValid(e: Event) {
    |e.id| >= 1 && e.eventType != "" && MinEventDataLength <= |e.data| <= MaxEventDataLength && e.timestamp != 0
  }

  /**
   * Event.Validate: the tag check, then the type, then the data length in bytes, then the
   * timestamp. The tags already demand a non-zero timestamp and data of at least one
   * character, so the last two checks can never fire; the byte-length check fires for data
   * of at most 10000 characters that encode to more than 10000 bytes.
   */
  function Validate(e: Event): (r: Option<DomainError>)
    ensures r.None? <==> StructurallyValid(e) && IsValid(e.eventType) && Utf8Len(e.data) <= MaxEventDataLength
    ensures r == Some(EventValidationFailed) <==> !StructurallyValid(e)
    ensures r.Some? && r.value.InvalidEventType? ==> StructurallyValid(e) && r.value.eventType == e.eventType && !IsValid(e.eventType)
    ensures r.Some? && r.value.EventDataTooLong? ==>
      IsValid(e.eventType) && |e.data| <= MaxEventDataLength < Utf8Len(e.data) == r.value.length
    ensures r.Some? ==> !r.value.InvalidEventData? && !r.value.InvalidTimestamp?
  {
    Utf8LenBounds(e.data);
    if !StructurallyValid(e) then Some(EventValidationFailed)
    else if !IsValid(e.eventType) then Some(InvalidEventType(e.eventType))
    else if Utf8Len(e.data) > MaxEventDataLength then Some(EventDataTooLong(Utf8Len(e.data)))
    else if Utf8Len(e.data) < MinEventDataLength then Some(InvalidEventData(Utf8Len(e.data)))
    else if e.timestamp == 0 then Some(InvalidTimestamp(false))
    else None
  }

  /** 6000 copies of 'é' pass the tag check but are 12000 bytes long. */
  lemma TooLongDespiteTags()
    ensures var e := Event("id", UserCreated, seq(6000, _ => 'é'), 1, "", "");
      Validate(e) == Some(EventDataTooLong(12000))
  {
    Utf8LenRepeat('é', 6000);
  }

  /** Why FromJSON fails: the JSON did not decode, or the decoded event is invalid. */
  datatype JsonError = UnmarshalFailed(cause: string) | InvalidFromJson(invalid: DomainError)

  function JsonErrorText(err: JsonError): string {
    match err
    case UnmarshalFailed(cause) => "failed to unmarshal event: " + cause
    case InvalidFromJson(invalid) => "invalid event from JSON: " + Sentinel(invalid)
  }

  /** FromJSON, given what json.Unmarshal made of the bytes: only valid events come back. */
  function FromJSON(decoded: Result<Event, string>): (r: Result<Event, JsonError>)
    ensures decoded.Err? ==> r == Err(UnmarshalFailed(decoded.error))
    ensures r.Ok? <==> decoded.Ok? && Validate(decoded.value).None?
    ensures r.Ok? ==> (r.value == decoded.value && IsValid(r.value.eventType)
      && 1 <= |r.value.data| <= Utf8Len(r.value.data) <= MaxEventDataLength)
    ensures decoded.Ok? && r.Err? ==> r.error == InvalidFromJson(Validate(decoded.value).value)
  {
    match decoded
    case Err(cause) => Err(UnmarshalFailed(cause))
    case Ok(e) =>
      Utf8LenBounds(e.data);
      var v := Validate(e);
      if v.Some? then Err(InvalidFromJson(v.value)) else Ok(e)
  }

  /** Clone: a field-by-field copy, equal to the original. */
  function Clone(e: Event): (r: Event)
    ensures r == e
  {
    Event(e.id, e.eventType, e.data, e.timestamp, e.version, e.source)
  }

  /** GetEventTypeFromString: the trimmed, lower-cased name if it is a known type; the error quotes the input as given. */
  function GetEventTypeFromString(s: string): (r: Result<string, DomainError>)
    ensures r.Ok? ==> IsValid(r.value) && |r.value| <= |s|
    ensures r.Err? ==> r.error == InvalidEventType(s)
  {
    var t := ToLower(TrimSpace(s));
    if IsValid(t) then Ok(t) else Err(InvalidEventType(s))
  }

  /** IsValidEventType agrees with GetEventTypeFromString. */
  predicate IsValidEventType(s: string)
    ensures IsValidEventType(s) <==> GetEventTypeFromString(s).Ok?
  {
    IsValid(ToLower(TrimSpace(s)))
  }

  /** s spells t up to the case of ASCII letters. */
  predicate CaseVariant(s: string, t: string) {
    |s| == |t| && forall i :: 0 <= i < |s| ==> LowerChar(s[i]) == t[i]
  }

  lemma NoSpaceInTypes(t: string)
    requires IsValid(t)
    ensures t != [] && forall i :: 0 <= i < |t| ==> !IsSpace(t[i])
  {
  }

  /** A known type, in any ASCII case and surrounded by any white space, is recognised as itself. */
  lemma EventTypeFromPaddedString(p: string, s: string, q: string, t: string)
    requires AllSpace(p) && AllSpace(q) && IsValid(t) && CaseVariant(s, t)
    ensures GetEventTypeFromString(p + s + q) == Ok(t)
  {
    NoSpaceInTypes(t);
    SpaceIsLower(s[0]);
    SpaceIsLower(s[|s| - 1]);
    assert Trimmed(s);
    TrimSpacePadded(p, s, q);
    LowerOfCaseVariant(s, t);
  }

  lemma LowerOfCaseVariant(s: string, t: string)
    requires CaseVariant(s, t)
    ensures ToLower(s) == t
  {
    assert forall i :: 0 <= i < |s| ==> ToLower(s)[i] == t[i];
  }

  lemma SpaceIsLower(c: char)
    ensures IsSpace(c) ==> LowerChar(c) == c
  {
  }

  /** Every name GetEventTypeFromString accepts is the lower-case form of its trimmed input. */
  lemma EventTypeFromStringIsTrimmedInput(s: string)
    requires GetEventTypeFromString(s).Ok?
    ensures CaseVariant(TrimSpace(s), GetEventTypeFromString(s).value)
  {
  }
}
