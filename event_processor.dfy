// The consumer application's event processor: a running/stopped state machine that dispatches
// each event to the handler registered for its type and keeps processed, failed and per-type
// counters.
module EventProcessing {
  import opened Wrappers
  import opened Seqs
  import CD = ConsumerDomain
  import SH = Shutdown

  /** The per-type counters after the successful results of `rs`, in order. */
  function BumpAll(m: map<string, nat>, rs: seq<CD.ProcessingResult>): map<string, nat> {
    if rs == [] then m
    else
      var before := BumpAll(m, rs[..|rs| - 1]);
      if rs[|rs| - 1].success then Bump(before, rs[|rs| - 1].eventType) else before
  }

  function Successes(rs: seq<CD.ProcessingResult>): (n: nat)
    ensures n <= |rs|
  {
    if rs == [] then 0 else Successes(rs[..|rs| - 1]) + (if rs[|rs| - 1].success then 1 else 0)
  }

  /** The events of type t, in input order. */
  function Group(events: seq<CD.Event>, t: string): (r: seq<CD.Event>)
  {
    if events == [] then []
    else Group(events[..|events| - 1], t) + (if events[|events| - 1].eventType == t then [events[|events| - 1]] else [])
  }

  /** A type's group holds only events of that type. */
  lemma {:induction false} GroupOfType(events: seq<CD.Event>, t: string)
    ensures forall i :: 0 <= i < |Group(events, t)| ==> Group(events, t)[i].eventType == t
    decreases |events|
  {
    if events != [] {
      GroupOfType(events[..|events| - 1], t);
    }
  }

  /** One more result moves the counters by that result alone. */
  lemma CountersSnoc(m: map<string, nat>, rs: seq<CD.ProcessingResult>, r: CD.ProcessingResult)
    ensures Successes(rs + [r]) == Successes(rs) + (if r.success then 1 else 0)
    ensures BumpAll(m, rs + [r]) == if r.success then Bump(BumpAll(m, rs), r.eventType) else BumpAll(m, rs)
  {
    assert (rs + [r])[..|rs|] == rs;
  }

  /** The groups of the types in `order`, one after the other. */
  function Grouped(events: seq<CD.Event>, order: seq<string>): seq<CD.Event> {
    if order == [] then [] else Grouped(events, order[..|order| - 1]) + Group(events, order[|order| - 1])
  }

  function TypesOf(events: seq<CD.Event>): set<string> {
    set i | 0 <= i < |events| :: events[i].eventType
  }

  predicate Distinct(order: seq<string>) {
    forall i, j :: 0 <= i < j < |order| ==> order[i] != order[j]
  }

  /** Adding an event to the input adds it to its type's group and to nothing else. */
  lemma {:induction false} GroupedSnoc(events: seq<CD.Event>, e: CD.Event, order: seq<string>)
    requires Distinct(order)
    ensures multiset(Grouped(events + [e], order))
      == multiset(Grouped(events, order)) + (if e.eventType in order then multiset{e} else multiset{})
    decreases |order|
  {
    if order != [] {
      var front := order[..|order| - 1];
      var t := order[|order| - 1];
      assert Distinct(front);
      GroupedSnoc(events, e, front);
      assert (events + [e])[..|events + [e]| - 1] == events;
      assert e.eventType in order <==> e.eventType in front || e.eventType == t;
      assert !(e.eventType in front && e.eventType == t);
    }
  }

  lemma {:induction false} GroupedNone(order: seq<string>)
    ensures Grouped([], order) == []
    decreases |order|
  {
    if order != [] {
      GroupedNone(order[..|order| - 1]);
    }
  }

  /**
   * When `order` lists every type of the input once, the grouping is a permutation of the
   * input: every event appears exactly as often as it was given.
   */
  lemma {:induction false} GroupedIsPermutation(events: seq<CD.Event>, order: seq<string>)
    requires Distinct(order) && TypesOf(events) <= (set t | t in order)
    ensures multiset(Grouped(events, order)) == multiset(events)
    ensures |Grouped(events, order)| == |events|
    decreases |events|
  {
    if events == [] {
      GroupedNone(order);
    } else {
      var front := events[..|events| - 1];
      var e := events[|events| - 1];
      assert front + [e] == events;
      assert TypesOf(front) <= TypesOf(events) by {
        forall t | t in TypesOf(front) ensures t in TypesOf(events) {
          var i :| 0 <= i < |front| && front[i].eventType == t;
          assert events[i].eventType == t;
        }
      }
      assert e.eventType in TypesOf(events);
      GroupedIsPermutation(front, order);
      GroupedSnoc(front, e, order);
    }
    assert |multiset(Grouped(events, order))| == |Grouped(events, order)|;
  }

  /** Hence the grouping loses and adds nothing in number. */
  lemma GroupedLength(events: seq<CD.Event>, order: seq<string>)
    requires Distinct(order) && TypesOf(events) <= (set t | t in order)
    ensures |Grouped(events, order)| == |events|
  {
    GroupedIsPermutation(events, order);
  }

  const NotRunning: string := "processor is not running"
  const AlreadyRunning: string := "processor is already running"

  /** The types registerHandlers installs a handler for. */
  const HandlerTypes: set<string> := {CD.UserCreated, CD.OrderPlaced, CD.PaymentProcessed}

  /**
   * The result of handling one event: no handler for its type, or the handler's error
   * (`handlerErr`; the three registered handlers never fail), or success.
   */
  function ResultFor(handlerErr: CD.Event -> Option<string>, e: CD.Event): (r: CD.ProcessingResult)
    ensures r.eventId == e.id && r.eventType == e.eventType
    ensures r.success <==> e.eventType in HandlerTypes && handlerErr(e).None?
  {
    if e.eventType !in HandlerTypes then CD.ProcessingResult(e.id, e.eventType, false, "no handler for event type: " + e.eventType)
    else if handlerErr(e).Some? then CD.ProcessingResult(e.id, e.eventType, false, handlerErr(e).value)
    else CD.ProcessingResult(e.id, e.eventType, true, "")
  }

  function ResultsFor(handlerErr: CD.Event -> Option<string>, es: seq<CD.Event>): (r: seq<CD.ProcessingResult>)
    ensures |r| == |es| && forall i :: 0 <= i < |es| ==> r[i] == ResultFor(handlerErr, es[i])
  {
    seq(|es|, i requires 0 <= i < |es| => ResultFor(handlerErr, es[i]))
  }

  /** ProcessorStats without its rates, latency, worker count and times. */
  datatype ProcessorStats = ProcessorStats(eventsProcessed: nat, eventsFailed: nat, eventsByType: map<string, nat>)

  class EventProcessor {
    const handlerErr: CD.Event -> Option<string>
    var running: bool
    /** How far the shutdown of the goroutines Start launched has got. */
    var signals: SH.Signals
    var eventsProcessed: nat
    var eventsFailed: nat
    var eventsByType: map<string, nat>

    /** NewEventProcessor: stopped, with zero counters and the three handlers registered. */
    constructor(handlerErr: CD.Event -> Option<string>)
      ensures this.handlerErr == handlerErr && !running && signals == SH.Quiet
      ensures eventsProcessed == 0 && eventsFailed == 0 && eventsByType == map[]
    {
      this.handlerErr := handlerErr;
      running := false;
      signals := SH.Quiet;
      eventsProcessed := 0;
      eventsFailed := 0;
      eventsByType := map[];
    }

    /** CanHandle: a handler is registered exactly for the known event types. */
    function CanHandle(t: string): (r: bool)
      ensures r <==> CD.IsValid(t)
    {
      t in HandlerTypes
    }

    /** GetSupportedTypes, as a set: its order follows map iteration. */
    function SupportedTypes(): (r: set<string>)
      ensures forall t :: t in r <==> CD.IsValid(t)
      ensures |r| == 3
    {
      assert HandlerTypes == {CD.UserCreated, CD.OrderPlaced, CD.PaymentProcessed};
      HandlerTypes
    }

    /** Start: only a stopped processor starts; otherwise "processor is already running" and nothing changes. */
    method Start() returns (err: Option<string>)
      modifies this`running
      ensures running
      ensures err.None? <==> !old(running)
      ensures err.Some? ==> err.value == AlreadyRunning
    {
      if running {
        return Some(AlreadyRunning);
      }
      running := true;
      return None;
    }

    /**
     * Stop: a stopped processor returns nil at once. A running one is marked stopped and shuts its
     * goroutines down as ProcessorStop says, which waits for the result collector before closing
     * the channel the collector ranges over: after Start, Stop never returns.
     */
    method Stop() returns (exit: SH.Exit<Option<string>>)
      modifies this`running, this`signals
      ensures !running
      ensures !old(running) ==> exit == SH.Returns(None) && signals == old(signals)
      ensures old(running) ==> (var o := SH.Run(SH.ProcessorStop, old(signals));
        signals == o.signals && exit == SH.ExitOf(o, None))
      ensures old(running) && !old(signals).inputClosed && !old(signals).resultsClosed ==> exit == SH.Blocks
    {
      if !running {
        return SH.Returns(None);
      }
      running := false;
      var o := SH.Run(SH.ProcessorStop, signals);
      if !signals.inputClosed && !signals.resultsClosed {
        SH.ProcessorStopBlocks(signals);
      }
      signals := o.signals;
      exit := SH.ExitOf(o, None);
    }

    /**
     * Stop with the collector waited for on its own, after the result channel is closed: from a
     * first start it returns nil, with the context cancelled and both channels closed.
     */
    method StopCollectorLast() returns (exit: SH.Exit<Option<string>>)
      modifies this`running, this`signals
      ensures !running
      ensures !old(running) ==> exit == SH.Returns(None) && signals == old(signals)
      ensures old(running) ==> (var o := SH.Run(SH.CollectorLast, old(signals));
        signals == o.signals && exit == SH.ExitOf(o, None))
      ensures old(running) && !old(signals).inputClosed && !old(signals).resultsClosed ==>
        exit == SH.Returns(None) && signals.cancelled && signals.inputClosed && signals.resultsClosed
    {
      if !running {
        return SH.Returns(None);
      }
      running := false;
      var o := SH.Run(SH.CollectorLast, signals);
      if !signals.inputClosed && !signals.resultsClosed {
        SH.CollectorLastReturns(signals);
      }
      signals := o.signals;
      exit := SH.ExitOf(o, None);
    }

    /**
     * Process: a stopped processor fails and changes nothing; otherwise the event's result is
     * ResultFor, and a success bumps the processed count and its type's count while a failure
     * bumps the failed count — exactly one of the two.
     */
    method Process(e: CD.Event) returns (result: Option<CD.ProcessingResult>, err: Option<string>)
      modifies this`eventsProcessed, this`eventsFailed, this`eventsByType
      ensures !running ==> (result.None? && err == Some(NotRunning) && eventsProcessed == old(eventsProcessed)
        && eventsFailed == old(eventsFailed) && eventsByType == old(eventsByType))
      ensures running ==> (result == Some(ResultFor(handlerErr, e)) && (err.None? <==> result.value.success)
        && (err.Some? ==> err.value == result.value.error))
      ensures running && result.value.success ==> (eventsProcessed == old(eventsProcessed) + 1
        && eventsFailed == old(eventsFailed) && eventsByType == Bump(old(eventsByType), e.eventType))
      ensures running && !result.value.success ==> (eventsFailed == old(eventsFailed) + 1
        && eventsProcessed == old(eventsProcessed) && eventsByType == old(eventsByType))
    {
      if !running {
        return None, Some(NotRunning);
      }
      var r := ResultFor(handlerErr, e);
      if r.success {
        eventsProcessed := eventsProcessed + 1;
        eventsByType := Bump(eventsByType, e.eventType);
        return Some(r), None;
      }
      eventsFailed := eventsFailed + 1;
      return Some(r), Some(r.error);
    }

    /** The grouping loop of ProcessBatch: each type of the input maps to its events, in input order. */
    static method GroupByType(events: seq<CD.Event>) returns (byType: map<string, seq<CD.Event>>)
      ensures forall t :: t in byType <==> t in TypesOf(events)
      ensures forall t :: t in byType ==> byType[t] == Group(events, t)
    {
      byType := map[];
      for i := 0 to |events|
        invariant forall t :: t in byType <==> t in TypesOf(events[..i])
        invariant forall t :: t in byType ==> byType[t] == Group(events[..i], t)
      {
        var e := events[i];
        if e.eventType !in byType {
          GroupAbsent(events[..i], e.eventType);
        }
        byType := byType[e.eventType := (if e.eventType in byType then byType[e.eventType] else []) + [e]];
        assert events[..i + 1] == events[..i] + [e];
        TypesOfSnoc(events[..i], e);
        GroupSnoc(events[..i], e);
      }
      assert events[..|events|] == events;
    }

    /** One handled event: its result goes into its slot and the counters move by it. */
    method RecordResult(r: CD.ProcessingResult, slots: array<CD.ProcessingResult>, at: nat)
      requires at < slots.Length
      modifies slots, this`eventsProcessed, this`eventsFailed, this`eventsByType
      ensures slots[..] == old(slots[..])[at := r]
      ensures eventsProcessed == old(eventsProcessed) + (if r.success then 1 else 0)
      ensures eventsFailed == old(eventsFailed) + (if r.success then 0 else 1)
      ensures eventsByType == if r.success then Bump(old(eventsByType), r.eventType) else old(eventsByType)
    {
      if r.success {
        eventsProcessed := eventsProcessed + 1;
        eventsByType := Bump(eventsByType, r.eventType);
      } else {
        eventsFailed := eventsFailed + 1;
      }
      slots[at] := r;
    }

    /** One group of ProcessBatch: its results go to slots start, start + 1, ... and the counters follow them. */
    method HandleGroup(typeEvents: seq<CD.Event>, slots: array<CD.ProcessingResult>, start: nat)
      requires start + |typeEvents| <= slots.Length
      modifies slots, this`eventsProcessed, this`eventsFailed, this`eventsByType
      ensures slots[..start] == old(slots[..start])
      ensures slots[start..start + |typeEvents|] == ResultsFor(handlerErr, typeEvents)
      ensures var rs := ResultsFor(handlerErr, typeEvents);
        eventsProcessed == old(eventsProcessed) + Successes(rs)
        && eventsFailed == old(eventsFailed) + |rs| - Successes(rs)
        && eventsByType == BumpAll(old(eventsByType), rs)
    {
      ghost var rs: seq<CD.ProcessingResult> := [];
      ghost var prefix, processed0, failed0, byType0 := slots[..start], eventsProcessed, eventsFailed, eventsByType;
      for j := 0 to |typeEvents|
        invariant |rs| == j && forall i :: 0 <= i < j ==> rs[i] == ResultFor(handlerErr, typeEvents[i])
        invariant slots[..start] == prefix
        invariant slots[start..start + j] == rs
        invariant eventsProcessed == processed0 + Successes(rs)
        invariant eventsFailed == failed0 + j - Successes(rs)
        invariant eventsByType == BumpAll(byType0, rs)
      {
        var r := ResultFor(handlerErr, typeEvents[j]);
        CountersSnoc(byType0, rs, r);
        ghost var before := slots[..];
        RecordResult(r, slots, start + j);
        assert slots[..] == before[start + j := r];
        assert slots[start..start + j + 1] == slots[start..start + j] + [r];
        rs := rs + [r];
      }
      assert rs == ResultsFor(handlerErr, typeEvents);
    }

    /**
     * Where ProcessBatch's loop stands after the first k types of `order`: the slots so far
     * hold the results of those groups, and the counters have moved by those results.
     */
    ghost predicate Progress(events: seq<CD.Event>, order: seq<string>, k: nat, slots: array<CD.ProcessingResult>,
                             resultIndex: nat, done: seq<CD.ProcessingResult>, processed0: nat, failed0: nat,
                             byType0: map<string, nat>)
      reads this, slots
    {
      k <= |order| && done == ResultsFor(handlerErr, Grouped(events, order[..k]))
      && resultIndex == |done| <= slots.Length && slots[..resultIndex] == done
      && eventsProcessed == processed0 + Successes(done)
      && eventsFailed == failed0 + |done| - Successes(done)
      && eventsByType == BumpAll(byType0, done)
    }

    /** One turn of ProcessBatch's loop: the group of the next type of `order` is handled into the next slots. */
    method ProcessGroupAt(events: seq<CD.Event>, order: seq<string>, k: nat, byType: map<string, seq<CD.Event>>,
                          slots: array<CD.ProcessingResult>, resultIndex: nat, ghost done: seq<CD.ProcessingResult>,
                          ghost processed0: nat, ghost failed0: nat, ghost byType0: map<string, nat>)
      returns (next: nat, ghost done2: seq<CD.ProcessingResult>)
      requires k < |order| && slots.Length == |Grouped(events, order)|
      requires order[k] in byType && byType[order[k]] == Group(events, order[k])
      requires Progress(events, order, k, slots, resultIndex, done, processed0, failed0, byType0)
      modifies slots, this`eventsProcessed, this`eventsFailed, this`eventsByType
      ensures Progress(events, order, k + 1, slots, next, done2, processed0, failed0, byType0)
    {
      var t := order[k];
      var typeEvents := byType[t];
      GroupedPrefixStep(events, order, k);
      ResultsForAppend(handlerErr, Grouped(events, order[..k]), typeEvents);
      assert resultIndex + |typeEvents| <= slots.Length;
      HandleGroup(typeEvents, slots, resultIndex);
      ghost var rs := ResultsFor(handlerErr, typeEvents);
      assert slots[..resultIndex] == done;
      assert slots[resultIndex..resultIndex + |typeEvents|] == rs;
      SuccessesAppend(done, rs);
      BumpAllAppend(byType0, done, rs);
      SliceConcat(slots[..], resultIndex, |typeEvents|);
      assert |rs| == |typeEvents|;
      assert slots[..resultIndex + |typeEvents|] == done + rs;
      done2 := done + rs;
      next := resultIndex + |typeEvents|;
      assert done2 == ResultsFor(handlerErr, Grouped(events, order[..k + 1]));
      assert slots[..next] == done2;
      assert eventsProcessed == processed0 + Successes(done2);
      assert eventsFailed == failed0 + |done2| - Successes(done2);
      assert eventsByType == BumpAll(byType0, done2);
    }

    /** ProcessBatch's loop over the type order: every group is handled, one after the other, into the slots. */
    method HandleGroups(events: seq<CD.Event>, order: seq<string>, byType: map<string, seq<CD.Event>>,
                        slots: array<CD.ProcessingResult>)
      returns (resultIndex: nat, ghost done: seq<CD.ProcessingResult>)
      requires slots.Length == |Grouped(events, order)|
      requires forall k :: 0 <= k < |order| ==> order[k] in byType && byType[order[k]] == Group(events, order[k])
      modifies slots, this`eventsProcessed, this`eventsFailed, this`eventsByType
      ensures Progress(events, order, |order|, slots, resultIndex, done, old(eventsProcessed), old(eventsFailed), old(eventsByType))
    {
      resultIndex, done := 0, [];
      for k := 0 to |order|
        invariant Progress(events, order, k, slots, resultIndex, done, old(eventsProcessed), old(eventsFailed), old(eventsByType))
      {
        resultIndex, done := ProcessGroupAt(events, order, k, byType, slots, resultIndex, done,
                                            old(eventsProcessed), old(eventsFailed), old(eventsByType));
      }
    }

    /**
     * ProcessBatch, with `order` the order in which the map of groups is iterated (each type
     * of the input once). It does not check that the processor runs. The results are those of
     * the events grouped by type, in input order inside each group, one per input event; the
     * counters move as they would for those results one after the other.
     */
    method ProcessBatch(events: seq<CD.Event>, order: seq<string>) returns (results: seq<CD.ProcessingResult>)
      requires Distinct(order) && (set t | t in order) == TypesOf(events)
      modifies this`eventsProcessed, this`eventsFailed, this`eventsByType
      ensures results == ResultsFor(handlerErr, Grouped(events, order))
      ensures |results| == |events|
      ensures eventsProcessed == old(eventsProcessed) + Successes(results)
      ensures eventsFailed == old(eventsFailed) + |results| - Successes(results)
      ensures eventsByType == BumpAll(old(eventsByType), results)
    {
      GroupedLength(events, order);
      if |events| == 0 {
        return [];
      }
      var slots := new CD.ProcessingResult[|events|](_ => CD.ProcessingResult("", "", false, ""));
      var byType := GroupByType(events);
      forall k | 0 <= k < |order|
        ensures order[k] in byType && byType[order[k]] == Group(events, order[k])
      {
        assert order[k] in (set t | t in order);
      }
      var resultIndex, done := HandleGroups(events, order, byType, slots);
      assert order[..|order|] == order;
      assert slots[..] == slots[..resultIndex];
      results := slots[..];
    }

    /** GetStats: a snapshot of the counters; the map is a copy, so later updates do not reach it. */
    method GetStats() returns (s: ProcessorStats)
      ensures s == ProcessorStats(eventsProcessed, eventsFailed, eventsByType)
    {
      var copy: map<string, nat> := map[];
      var keys := eventsByType.Keys;
      while keys != {}
        invariant keys <= eventsByType.Keys
        invariant copy.Keys == eventsByType.Keys - keys
        invariant forall k :: k in copy ==> copy[k] == eventsByType[k]
        decreases keys
      {
        var k :| k in keys;
        copy := copy[k := eventsByType[k]];
        keys := keys - {k};
      }
      assert copy == eventsByType;
      s := ProcessorStats(eventsProcessed, eventsFailed, copy);
    }
  }

  lemma ResultsForAppend(handlerErr: CD.Event -> Option<string>, a: seq<CD.Event>, b: seq<CD.Event>)
    ensures ResultsFor(handlerErr, a + b) == ResultsFor(handlerErr, a) + ResultsFor(handlerErr, b)
  {
  }

  lemma {:induction false} SuccessesAppend(a: seq<CD.ProcessingResult>, b: seq<CD.ProcessingResult>)
    ensures Successes(a + b) == Successes(a) + Successes(b)
    decreases |b|
  {
    if b == [] {
      assert a + b == a;
    } else {
      assert (a + b)[..|a + b| - 1] == a + b[..|b| - 1];
      SuccessesAppend(a, b[..|b| - 1]);
    }
  }

  lemma {:induction false} BumpAllAppend(m: map<string, nat>, a: seq<CD.ProcessingResult>, b: seq<CD.ProcessingResult>)
    ensures BumpAll(m, a + b) == BumpAll(BumpAll(m, a), b)
    decreases |b|
  {
    if b == [] {
      assert a + b == a;
    } else {
      assert (a + b)[..|a + b| - 1] == a + b[..|b| - 1];
      BumpAllAppend(m, a, b[..|b| - 1]);
    }
  }

  lemma GroupAbsent(events: seq<CD.Event>, t: string)
    requires t !in TypesOf(events)
    ensures Group(events, t) == []
  {
    if events != [] {
      assert events[|events| - 1].eventType in TypesOf(events);
      assert TypesOf(events[..|events| - 1]) <= TypesOf(events) by {
        forall u | u in TypesOf(events[..|events| - 1]) ensures u in TypesOf(events) {
          var i :| 0 <= i < |events| - 1 && events[..|events| - 1][i].eventType == u;
          assert events[i].eventType == u;
        }
      }
      GroupAbsent(events[..|events| - 1], t);
    }
  }

  lemma GroupSnoc(events: seq<CD.Event>, e: CD.Event)
    ensures forall t :: Group(events + [e], t) == Group(events, t) + (if e.eventType == t then [e] else [])
  {
    assert (events + [e])[..|events|] == events;
  }

  lemma SliceConcat<T>(s: seq<T>, i: nat, n: nat)
    requires i + n <= |s|
    ensures s[..i + n] == s[..i] + s[i..i + n]
  {
  }

  lemma TypesOfSnoc(events: seq<CD.Event>, e: CD.Event)
    ensures TypesOf(events + [e]) == TypesOf(events) + {e.eventType}
  {
    var s := events + [e];
    forall t | t in TypesOf(s) ensures t in TypesOf(events) + {e.eventType} {
      var i :| 0 <= i < |s| && s[i].eventType == t;
      if i < |events| {
        assert events[i].eventType == t;
      }
    }
    forall t | t in TypesOf(events) ensures t in TypesOf(s) {
      var i :| 0 <= i < |events| && events[i].eventType == t;
      assert s[i].eventType == t;
    }
    assert s[|events|].eventType == e.eventType;
  }

  lemma {:induction false} GroupedAppend(events: seq<CD.Event>, a: seq<string>, b: seq<string>)
    ensures Grouped(events, a + b) == Grouped(events, a) + Grouped(events, b)
    decreases |b|
  {
    if b == [] {
      assert a + b == a;
    } else {
      var front, t := b[..|b| - 1], b[|b| - 1];
      assert (a + b)[..|a + b| - 1] == a + front && (a + b)[|a + b| - 1] == t;
      GroupedAppend(events, a, front);
      assert Grouped(events, a + b) == Grouped(events, a + front) + Group(events, t);
      assert Grouped(events, b) == Grouped(events, front) + Group(events, t);
    }
  }

  /** One more type of the order adds its group, and a prefix of the order groups no more than all of it. */
  lemma GroupedPrefixStep(events: seq<CD.Event>, order: seq<string>, k: nat)
    requires k < |order|
    ensures Grouped(events, order[..k + 1]) == Grouped(events, order[..k]) + Group(events, order[k])
    ensures |Grouped(events, order[..k + 1])| <= |Grouped(events, order)|
  {
    assert order[..k + 1][..k] == order[..k];
    assert order == order[..k + 1] + order[k + 1..];
    GroupedAppend(events, order[..k + 1], order[k + 1..]);
  }
}
