// The sample application's HTTP event handlers: the request body's data is trimmed and checked,
// an absent one replaced by the endpoint's default text.
module SampleHandlers {
  import opened Wrappers
  import opened Text

  const ErrInvalidEventData: string := "event data cannot be empty"
  const ErrEventDataTooLong: string := "event data is too long"
  /** The largest accepted data, in UTF-8 bytes. */
  const MaxRequestData: nat := 1000

  const DefaultUserData: string := "New user has been created"
  const DefaultOrderData: string := "New order has been placed"
  const DefaultPaymentData: string := "Payment has been processed"

  /** The error EventRequest.Validate reports for request data `data`, None when it accepts it. */
  function RequestError(data: string): (r: Option<string>)
    ensures r.None? <==> !AllSpace(data) && Utf8Len(TrimSpace(data)) <= MaxRequestData
    ensures r == Some(ErrInvalidEventData) <==> AllSpace(data)
    ensures r == Some(ErrEventDataTooLong) <==> Utf8Len(TrimSpace(data)) > MaxRequestData
  {
    var trimmed := TrimSpace(data);
    if trimmed == "" then Some(ErrInvalidEventData)
    else if Utf8Len(trimmed) > MaxRequestData then Some(ErrEventDataTooLong)
    else None
  }

  /** Accepted data stays accepted and unchanged when checked again. */
  lemma ValidateIdempotent(data: string)
    requires RequestError(data).None?
    ensures TrimSpace(TrimSpace(data)) == TrimSpace(data)
    ensures RequestError(TrimSpace(data)).None?
  {
    TrimSpaceIdempotent(data);
  }

  class EventRequest {
    var data: string

    constructor (data: string)
      ensures this.data == data
    {
      this.data := data;
    }

    /** Validate: trims the data in place, then checks it. */
    method Validate() returns (err: Option<string>)
      modifies this
      ensures data == TrimSpace(old(data)) && err == RequestError(old(data))
      ensures err.None? ==> data != "" && Trimmed(data) && Utf8Len(data) <= MaxRequestData
    {
      data := TrimSpace(data);
      if data == "" {
        return Some(ErrInvalidEventData);
      }
      if Utf8Len(data) > MaxRequestData {
        return Some(ErrEventDataTooLong);
      }
      err := None;
    }
  }

  /** The data parseAndValidateRequest hands on: empty data becomes the default, then it is validated. */
  function RequestData(data: string, defaultData: string): string {
    TrimSpace(if data == "" then defaultData else data)
  }

  /**
   * parseAndValidateRequest, given the outcome of decoding the JSON body's data field (the JSON
   * decoder is not part of this model): the validated request data, or the error.
   */
  method ParseAndValidateRequest(decoded: Result<string, string>, defaultData: string) returns (r: Result<string, string>)
    ensures decoded.Err? ==> r == Err(decoded.error)
    ensures decoded.Ok? ==>
      var data := if decoded.value == "" then defaultData else decoded.value;
      (RequestError(data).Some? ==> r == Err(RequestError(data).value))
      && (RequestError(data).None? ==> r == Ok(RequestData(decoded.value, defaultData)))
  {
    if decoded.Err? {
      return Err(decoded.error);
    }
    var req := new EventRequest(decoded.value);
    if req.data == "" {
      req.data := defaultData;
    }
    var err := req.Validate();
    if err.Some? {
      return Err(err.value);
    }
    r := Ok(req.data);
  }

  /** Non-blank ASCII text of at most 1000 characters with no white space at its ends is accepted as it is. */
  lemma ShortTextAccepted(s: string)
    requires s != "" && Trimmed(s) && |s| <= MaxRequestData
    requires forall i :: 0 <= i < |s| ==> s[i] as int < 0x80
    ensures RequestError(s).None? && TrimSpace(s) == s
  {
    TrimSpaceOfTrimmed(s);
    Utf8LenAscii(s);
  }

  /** Each endpoint's default data is accepted as it is. */
  lemma DefaultUserDataAccepted()
    ensures RequestError(DefaultUserData).None? && TrimSpace(DefaultUserData) == DefaultUserData
  {
    ShortTextAccepted(DefaultUserData);
  }

  lemma DefaultOrderDataAccepted()
    ensures RequestError(DefaultOrderData).None? && TrimSpace(DefaultOrderData) == DefaultOrderData
  {
    ShortTextAccepted(DefaultOrderData);
  }

  lemma DefaultPaymentDataAccepted()
    ensures RequestError(DefaultPaymentData).None? && TrimSpace(DefaultPaymentData) == DefaultPaymentData
  {
    ShortTextAccepted(DefaultPaymentData);
  }

  /** Only exactly empty data gets the default: white space alone is rejected. */
  lemma OnlyEmptyDataDefaulted(data: string, defaultData: string)
    requires data != "" && AllSpace(data)
    ensures RequestError(if data == "" then defaultData else data) == Some(ErrInvalidEventData)
  {
  }
}
