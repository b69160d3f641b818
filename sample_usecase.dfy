// The sample application's event use case: create an event of a fixed type, validate it, and
// publish it.
module SampleUseCase {
  import opened Wrappers
  import opened EventIds
  import SD = SampleDomain

  /**
   * The Create*Event body shared by the three endpoints: `noun` names the event in the publish
   * error, `publish` is the publisher's Publish (its error, None on success), and `sent` lists
   * the events handed to it.
   */
  method CreateEvent(eventType: string, noun: string, data: string, idClock: Clock, stamp: int, rnd: Entropy, publish: SD.Event -> Option<string>)
    returns (r: Result<SD.Event, string>, sent: seq<SD.Event>)
    requires eventType != ""
    ensures data == "" ==> r == Err("event data cannot be empty") && sent == []
    ensures data != "" && stamp == 0 ==> r == Err("event timestamp cannot be zero") && sent == []
    ensures data != "" && stamp != 0 ==>
      |sent| == 1 && sent[0].eventType == eventType && sent[0].data == data && sent[0].timestamp == stamp
      && SD.Validate(sent[0]).None?
      && (publish(sent[0]).None? ==> r == Ok(sent[0]))
      && (publish(sent[0]).Some? ==> r == Err("failed to publish " + noun + " event: " + publish(sent[0]).value))
  {
    var event := SD.NewEvent(eventType, data, idClock, stamp, rnd);
    var invalid := SD.Validate(event);
    if invalid.Some? {
      return Err(invalid.value), [];
    }
    sent := [event];
    var failure := publish(event);
    if failure.Some? {
      return Err("failed to publish " + noun + " event: " + failure.value), sent;
    }
    r := Ok(event);
  }

  method CreateUserEvent(data: string, idClock: Clock, stamp: int, rnd: Entropy, publish: SD.Event -> Option<string>)
    returns (r: Result<SD.Event, string>, sent: seq<SD.Event>)
    ensures forall i :: 0 <= i < |sent| ==> sent[i].eventType == SD.UserCreated
    ensures r.Ok? <==> data != "" && stamp != 0 && |sent| == 1 && publish(sent[0]).None?
    ensures r.Ok? ==> r.value == sent[0] && r.value.data == data
    ensures data == "" ==> r == Err("event data cannot be empty") && sent == []
    ensures data != "" && stamp != 0 ==>
      |sent| == 1 && (publish(sent[0]).Some? ==> r == Err("failed to publish user event: " + publish(sent[0]).value))
  {
    assert "failed to publish " + "user" + " event: " == "failed to publish user event: ";
    r, sent := CreateEvent(SD.UserCreated, "user", data, idClock, stamp, rnd, publish);
  }

  method CreateOrderEvent(data: string, idClock: Clock, stamp: int, rnd: Entropy, publish: SD.Event -> Option<string>)
    returns (r: Result<SD.Event, string>, sent: seq<SD.Event>)
    ensures forall i :: 0 <= i < |sent| ==> sent[i].eventType == SD.OrderPlaced
    ensures r.Ok? <==> data != "" && stamp != 0 && |sent| == 1 && publish(sent[0]).None?
    ensures r.Ok? ==> r.value == sent[0] && r.value.data == data
    ensures data == "" ==> r == Err("event data cannot be empty") && sent == []
    ensures data != "" && stamp != 0 ==>
      |sent| == 1 && (publish(sent[0]).Some? ==> r == Err("failed to publish order event: " + publish(sent[0]).value))
  {
    assert "failed to publish " + "order" + " event: " == "failed to publish order event: ";
    r, sent := CreateEvent(SD.OrderPlaced, "order", data, idClock, stamp, rnd, publish);
  }

  method CreatePaymentEvent(data: string, idClock: Clock, stamp: int, rnd: Entropy, publish: SD.Event -> Option<string>)
    returns (r: Result<SD.Event, string>, sent: seq<SD.Event>)
    ensures forall i :: 0 <= i < |sent| ==> sent[i].eventType == SD.PaymentProcessed
    ensures r.Ok? <==> data != "" && stamp != 0 && |sent| == 1 && publish(sent[0]).None?
    ensures r.Ok? ==> r.value == sent[0] && r.value.data == data
    ensures data == "" ==> r == Err("event data cannot be empty") && sent == []
    ensures data != "" && stamp != 0 ==>
      |sent| == 1 && (publish(sent[0]).Some? ==> r == Err("failed to publish payment event: " + publish(sent[0]).value))
  {
    assert "failed to publish " + "payment" + " event: " == "failed to publish payment event: ";
    r, sent := CreateEvent(SD.PaymentProcessed, "payment", data, idClock, stamp, rnd, publish);
  }
}
