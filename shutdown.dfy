// How the consumers stop their goroutines. Every goroutine a consumer starts is counted in a
// sync.WaitGroup and leaves its loop only once the signal it waits for has been given: its
// input channel closed, its context cancelled, the consumer's closed flag readable. A shutdown
// is a sequence of steps; a wg.Wait placed before the signal one of its goroutines needs never
// returns.
module Shutdown {
  /** The goroutines the consumers start, named by what lets each of them leave its loop. */
  datatype Goroutine =
    | Worker          // ranges over the input channel, then hands its last result on
    | Collector       // ranges over the result channel
    | Ticker          // a periodic updater selecting on the consumer's own context
    | Reader          // the consumer service's messageReader
    | MessageWorker   // the consumer service's messageWorker
    | BatchCommitter  // the consumer service's batchCommitter
    | StatsCollector  // the consumer service's collectStats

  /**
   * What has happened so far: the context cancelled, the input and result channels closed, the
   * closed flag set, and whether the shutdown holds the consumer's write lock.
   */
  datatype Signals = Signals(cancelled: bool, inputClosed: bool, resultsClosed: bool, closedFlag: bool, lockHeld: bool)

  /** Nothing signalled yet: the state of a consumer whose goroutines were just started. */
  const Quiet: Signals := Signals(false, false, false, false, false)

  /**
   * Whether g is certain to leave its loop, whatever the schedule, once the signals hold. A worker
   * needs its input channel closed: its last result is taken by the collector, still running, or
   * abandoned on cancellation. The consumer service's reader and stats collector take the read
   * lock on every turn, so while the write lock is held they can stop on it for good; its
   * workers also leave once the reader has, which closes their channel; its committer waits for
   * nothing but the context, since it closes its own channel only on the way out, and its final
   * commit takes the read lock too.
   */
  predicate Exits(g: Goroutine, s: Signals) {
    match g
    case Worker => s.inputClosed
    case Collector => s.resultsClosed
    case Ticker => s.cancelled
    case Reader => !s.lockHeld && (s.cancelled || s.closedFlag)
    case MessageWorker => s.cancelled || (!s.lockHeld && s.closedFlag)
    case BatchCommitter => !s.lockHeld && s.cancelled
    case StatsCollector => !s.lockHeld && (s.cancelled || s.closedFlag)
  }

  /** wg.Wait over the goroutines still counted returns on every schedule. */
  predicate WaitReturns(group: set<Goroutine>, s: Signals) {
    forall g :: g in group ==> Exits(g, s)
  }

  /** One step of a shutdown. */
  datatype Step = Cancel | CloseInput | CloseResults | SetClosed | Lock | Unlock | Wait(group: set<Goroutine>)

  /** How a shutdown ends: it returns, waits forever in a wg.Wait, or panics closing a closed channel. */
  datatype Ending = Returned | Blocked | Panicked

  /** The signals when the shutdown stopped, and how it stopped. */
  datatype Outcome = Outcome(signals: Signals, ending: Ending)

  /** How a call that ends with a shutdown comes back: with its value, never, or in a panic. */
  datatype Exit<T> = Returns(value: T) | Blocks | Panics

  /** A call whose shutdown ended as `o`, returning `v` when it returns. */
  function ExitOf<T>(o: Outcome, v: T): (r: Exit<T>)
    ensures r.Returns? <==> o.ending == Returned
    ensures r.Blocks? <==> o.ending == Blocked
    ensures r.Returns? ==> r.value == v
  {
    match o.ending
    case Returned => Returns(v)
    case Blocked => Blocks
    case Panicked => Panics
  }

  /** The signals after a step; a Wait changes none. */
  function After(step: Step, s: Signals): Signals {
    match step
    case Cancel => s.(cancelled := true)
    case CloseInput => s.(inputClosed := true)
    case CloseResults => s.(resultsClosed := true)
    case SetClosed => s.(closedFlag := true)
    case Lock => s.(lockHeld := true)
    case Unlock => s.(lockHeld := false)
    case Wait(_) => s
  }

  /** Whether a step can go on from the signals: a wait needs its group to leave, a close an open channel. */
  predicate Passes(step: Step, s: Signals) {
    match step
    case Wait(group) => WaitReturns(group, s)
    case CloseInput => !s.inputClosed
    case CloseResults => !s.resultsClosed
    case _ => true
  }

  /** The signals after all of the steps, as if none of them stopped. */
  function Through(steps: seq<Step>, s: Signals): Signals
    decreases |steps|
  {
    if steps == [] then s else Through(steps[1..], After(steps[0], s))
  }

  /** The steps run in order from the signals `s`. */
  function Run(steps: seq<Step>, s: Signals): (r: Outcome)
    ensures r.ending == Returned ==> r.signals == Through(steps, s)
    decreases |steps|
  {
    if steps == [] then Outcome(s, Returned)
    else if !Passes(steps[0], s) then Outcome(s, if steps[0].Wait? then Blocked else Panicked)
    else Run(steps[1..], After(steps[0], s))
  }

  /** A shutdown returns exactly when each of its steps can go on from the signals its earlier steps left. */
  lemma {:induction false} RunReturnsIff(steps: seq<Step>, s: Signals)
    ensures Run(steps, s).ending == Returned <==> forall i :: 0 <= i < |steps| ==> Passes(steps[i], Through(steps[..i], s))
    decreases |steps|
  {
    if steps != [] {
      var t := After(steps[0], s);
      RunReturnsIff(steps[1..], t);
      forall i | 1 <= i < |steps|
        ensures Through(steps[..i], s) == Through(steps[1..][..i - 1], t)
      {
        assert steps[..i][1..] == steps[1..][..i - 1];
      }
      assert Through(steps[..0], s) == s;
      if Run(steps, s).ending == Returned {
        forall i | 0 <= i < |steps|
          ensures Passes(steps[i], Through(steps[..i], s))
        {
          if i > 0 {
            assert steps[i] == steps[1..][i - 1];
          }
        }
      } else if Passes(steps[0], s) {
        var j :| 0 <= j < |steps| - 1 && !Passes(steps[1..][j], Through(steps[1..][..j], t));
        assert !Passes(steps[j + 1], Through(steps[..j + 1], s));
      }
    }
  }

  /** The goroutines both of the consumer application's components start: workers, a result collector and an updater. */
  const Pool: set<Goroutine> := {Worker, Collector, Ticker}

  /** The goroutines the consumer service's Start launches. */
  const ServiceGoroutines: set<Goroutine> := {Reader, MessageWorker, BatchCommitter, StatsCollector}

  /** EventProcessor.Stop after its compare-and-swap: cancel, close the event channel, wait for every goroutine, close the result channel. */
  const ProcessorStop: seq<Step> := [Cancel, CloseInput, Wait(Pool), CloseResults]

  /** Consume's deferred shutdown: close the event channel, wait for every goroutine, close the result channel. */
  const ConsumeDefer: seq<Step> := [CloseInput, Wait(Pool), CloseResults]

  /**
   * The order both should use: cancel, close the input, wait for the workers and the updater
   * (a WaitGroup of their own), close the result channel, and only then wait for the collector.
   */
  const CollectorLast: seq<Step> := [Cancel, CloseInput, Wait({Worker, Ticker}), CloseResults, Wait({Collector})]

  /** The consumer application's Close after its compare-and-swap: cancel, then wait for whatever is still counted. */
  function CancelAndWait(counted: set<Goroutine>): seq<Step> {
    [Cancel, Wait(counted)]
  }

  /** The consumer service's Close after its closed check: the flag is set and the wait made holding the write lock. */
  function LockedClose(counted: set<Goroutine>): seq<Step> {
    [Lock, SetClosed, Wait(counted), Unlock]
  }

  /** The intended order: set the flag under the lock, release it, then wait. */
  function UnlockedClose(counted: set<Goroutine>): seq<Step> {
    [Lock, SetClosed, Unlock, Wait(counted)]
  }

  /** A wait on a group holding the collector, before the result channel is closed, never returns. */
  lemma CollectorWaitBlocks(group: set<Goroutine>, s: Signals)
    requires Collector in group && !s.resultsClosed
    ensures Run([Wait(group)], s) == Outcome(s, Blocked)
  {
    assert !Exits(Collector, s);
  }

  /** EventProcessor.Stop never returns once Start has run: its wait comes before the close the collector needs. */
  lemma ProcessorStopBlocks(s: Signals)
    requires !s.inputClosed && !s.resultsClosed
    ensures Run(ProcessorStop, s) == Outcome(s.(cancelled := true, inputClosed := true), Blocked)
  {
    var t := s.(cancelled := true, inputClosed := true);
    assert ProcessorStop[1..][1..] == [Wait(Pool), CloseResults];
    assert !Exits(Collector, t);
    assert Run(ProcessorStop[1..], s.(cancelled := true)) == Run([Wait(Pool), CloseResults], t);
  }

  /** Consume's deferred shutdown never returns: it waits on the collector before closing the result channel. */
  lemma ConsumeDeferBlocks(s: Signals)
    requires !s.inputClosed && !s.resultsClosed
    ensures Run(ConsumeDefer, s) == Outcome(s.(inputClosed := true), Blocked)
  {
    var t := s.(inputClosed := true);
    assert ConsumeDefer[1..] == [Wait(Pool), CloseResults];
    assert !Exits(Collector, t);
  }

  /** The corrected order returns from any signals whose channels are still open, and leaves everything signalled. */
  lemma CollectorLastReturns(s: Signals)
    requires !s.inputClosed && !s.resultsClosed
    ensures Run(CollectorLast, s) == Outcome(s.(cancelled := true, inputClosed := true, resultsClosed := true), Returned)
  {
    var t := s.(cancelled := true, inputClosed := true);
    assert CollectorLast[1..][1..] == [Wait({Worker, Ticker}), CloseResults, Wait({Collector})];
    assert WaitReturns({Worker, Ticker}, t);
    assert CollectorLast[1..][1..][1..][1..] == [Wait({Collector})];
    assert WaitReturns({Collector}, t.(resultsClosed := true));
  }

  /** After the corrected shutdown, waiting again for all of the consumer application's goroutines returns. */
  lemma WaitAfterCollectorLast(s: Signals)
    requires !s.inputClosed && !s.resultsClosed
    ensures Run(CancelAndWait(Pool), Run(CollectorLast, s).signals).ending == Returned
  {
    CollectorLastReturns(s);
    var t := s.(cancelled := true, inputClosed := true, resultsClosed := true);
    assert WaitReturns(Pool, t);
    assert CancelAndWait(Pool)[1..] == [Wait(Pool)];
  }

  /** The cancel-and-wait Close never returns while the collector still waits for its channel to close. */
  lemma CancelAndWaitBlocks(counted: set<Goroutine>, s: Signals)
    requires Collector in counted && !s.resultsClosed
    ensures Run(CancelAndWait(counted), s) == Outcome(s.(cancelled := true), Blocked)
  {
    assert CancelAndWait(counted)[1..] == [Wait(counted)];
    assert !Exits(Collector, s.(cancelled := true));
  }

  /** With nothing counted, the cancel-and-wait Close returns. */
  lemma CancelAndWaitNothing(s: Signals)
    ensures Run(CancelAndWait({}), s) == Outcome(s.(cancelled := true), Returned)
  {
    assert CancelAndWait({})[1..] == [Wait({})];
  }

  /**
   * The consumer service's Close, made while Start's goroutines run, may wait forever: the
   * reader can be stopped on the read lock the wait holds, cancelled context or not.
   */
  lemma LockedCloseBlocks(counted: set<Goroutine>, s: Signals)
    requires Reader in counted
    ensures Run(LockedClose(counted), s) == Outcome(s.(lockHeld := true, closedFlag := true), Blocked)
  {
    var t := s.(lockHeld := true, closedFlag := true);
    assert LockedClose(counted)[1..][1..] == [Wait(counted), Unlock];
    assert !Exits(Reader, t);
    assert Run(LockedClose(counted)[1..], s.(lockHeld := true)) == Run([Wait(counted), Unlock], t);
  }

  /** With Start's goroutines gone, the locked Close returns with the flag set and the lock released. */
  lemma LockedCloseNothing(s: Signals)
    ensures Run(LockedClose({}), s) == Outcome(s.(closedFlag := true, lockHeld := false), Returned)
  {
    assert LockedClose({})[1..][1..] == [Wait({}), Unlock];
    assert Run(LockedClose({})[1..], s.(lockHeld := true)) == Run([Wait({}), Unlock], s.(lockHeld := true, closedFlag := true));
  }

  /** With Start's goroutines gone, the unlocked Close returns as well. */
  lemma UnlockedCloseNothing(s: Signals)
    ensures Run(UnlockedClose({}), s) == Outcome(s.(closedFlag := true, lockHeld := false), Returned)
  {
    assert UnlockedClose({})[1..][1..][1..] == [Wait({})];
  }

  /**
   * Setting the flag and releasing the lock before waiting lets the reader, the workers and the
   * stats collector leave; the wait returns exactly when the context has been cancelled, which
   * the committer still needs.
   */
  lemma UnlockedCloseReturns(s: Signals)
    ensures Run(UnlockedClose(ServiceGoroutines), s).ending == Returned <==> s.cancelled
  {
    var t := s.(lockHeld := false, closedFlag := true);
    assert UnlockedClose(ServiceGoroutines)[1..][1..][1..] == [Wait(ServiceGoroutines)];
    assert Exits(BatchCommitter, t) <==> s.cancelled;
    if s.cancelled {
      assert WaitReturns(ServiceGoroutines, t);
    }
  }
}
