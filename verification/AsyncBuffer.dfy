/**
 * Reading ahead through a bounded buffer: a producer loop and a consumer generator share a queue and
 * two wake-up slots. Between two awaits code runs undisturbed; each event below is one such stretch.
 */
module AsyncBuffer {
  import opened Bytes

  datatype Ending = Finishes | Throws(truthy: bool)

  /** The items the source yields, how it ends after them, and the buffer's capacity. */
  datatype Job<T> = Job(source: seq<T>, ending: Ending, capacity: nat)

  /** Asleep: its wake-up slot is filled. Woken: the slot was called and the loop will run on. */
  datatype Producer = Asleep | Woken | AwaitingNext | AwaitingReturn | Resolved | Rejected

  datatype Outcome = Returned | Threw

  datatype Consumer =
    | Fresh | Suspended | Sleeping | Roused | Joining
    | Closing(result: Outcome) | Ended(outcome: Outcome)

  datatype State<T> = State(
    queue: seq<T>,
    taken: nat,                   // items the source has yielded so far
    producerDone: bool,
    stopped: bool,
    pendingNext: bool,
    producerError: Option<bool>,  // whether the caught value is truthy
    producer: Producer,
    consumer: Consumer,
    output: seq<T>,               // history: items handed to the caller
    interrupted: bool)            // history: the caller aborted or returned early

  datatype Event =
    | SourceYields | SourceEnds | SourceReturned(ok: bool)
    | ProducerResumes | ConsumerResumes
    | NextCalled | ReturnCalled | PumpSettled | Aborted

  function WakeProducer<T>(s: State<T>): State<T> {
    if s.producer.Asleep? then s.(producer := Woken) else s
  }

  function WakeConsumer<T>(s: State<T>): State<T> {
    if s.consumer.Sleeping? then s.(consumer := Roused) else s
  }

  function ProducerEnd<T>(s: State<T>): State<T> {
    WakeConsumer(s.(producerDone := true, producer := if s.stopped then AwaitingReturn else Resolved))
  }

  function ProducerLoop<T>(job: Job<T>, s: State<T>): State<T> {
    if s.stopped then ProducerEnd(s)
    else if |s.queue| >= job.capacity then s.(producer := Asleep)
    else s.(pendingNext := true, producer := AwaitingNext)
  }

  /** The generator's closing code: it waits for the producer unless that waits for the source. */
  function ConsumerClose<T>(s: State<T>, result: Outcome): State<T> {
    WakeProducer(s.(stopped := true, queue := [], consumer := if s.pendingNext then Ended(result) else Closing(result)))
  }

  function ConsumerLoop<T>(s: State<T>): State<T> {
    if |s.queue| == 0 && !s.producerDone && !s.stopped then s.(consumer := Sleeping)
    else if s.stopped then ConsumerClose(s, Returned)
    else if |s.queue| > 0 then
      WakeProducer(s.(queue := s.queue[1..], output := s.output + [s.queue[0]], consumer := Suspended))
    else s.(consumer := Joining)
  }

  function Stop<T>(s: State<T>): State<T> {
    WakeConsumer(WakeProducer(s.(stopped := true, queue := [], interrupted := true)))
  }

  /** The buffer right after it is created: the producer has run up to its first await. */
  function Start<T>(job: Job<T>, aborted: bool): State<T> {
    ProducerLoop(job, State([], 0, false, aborted, false, None, Woken, Fresh, [], aborted))
  }

  function Step<T>(job: Job<T>, s: State<T>, e: Event): Option<State<T>> {
    match e
    case SourceYields =>
      if !(s.producer.AwaitingNext? && s.taken < |job.source|) then None
      else
        var s' := s.(pendingNext := false, taken := s.taken + 1);
        Some(if s.stopped then ProducerEnd(s')
             else ProducerLoop(job, WakeConsumer(s'.(queue := s.queue + [job.source[s.taken]]))))
    case SourceEnds =>
      if !(s.producer.AwaitingNext? && s.taken == |job.source|) then None
      else
        var error := if job.ending.Throws? then Some(job.ending.truthy) else None;
        Some(ProducerEnd(s.(pendingNext := false, producerError := error)))
    case SourceReturned(ok) =>
      if s.producer.AwaitingReturn? then Some(s.(producer := if ok then Resolved else Rejected)) else None
    case ProducerResumes => if s.producer.Woken? then Some(ProducerLoop(job, s)) else None
    case ConsumerResumes => if s.consumer.Roused? then Some(ConsumerLoop(s)) else None
    case NextCalled => if s.consumer.Fresh? || s.consumer.Suspended? then Some(ConsumerLoop(s)) else None
    case ReturnCalled =>
      // A generator that never ran just ends; its closing code does not run.
      if s.consumer.Fresh? then Some(s.(consumer := Ended(Returned), interrupted := true))
      else if s.consumer.Suspended? then Some(ConsumerClose(s.(interrupted := true), Returned))
      else None
    case PumpSettled =>
      if !(s.producer.Resolved? || s.producer.Rejected?) then None
      else if s.consumer.Joining? then
        Some(ConsumerClose(s, if s.producer.Rejected? || s.producerError == Some(true) then Threw else Returned))
      else if s.consumer.Closing? then
        Some(s.(consumer := Ended(if s.producer.Rejected? then Threw else s.consumer.result)))
      else None
    case Aborted => if s.consumer.Ended? || s.consumer.Closing? then None else Some(Stop(s))
  }

  function Run<T>(job: Job<T>, s: State<T>, events: seq<Event>): Option<State<T>>
    decreases |events|
  {
    if |events| == 0 then Some(s)
    else
      match Step(job, s, events[0])
      case None => None
      case Some(s') => Run(job, s', events[1..])
  }

  // ---- What every step keeps ----

  ghost predicate SlotsGood<T>(job: Job<T>, s: State<T>) {
    && (s.pendingNext <==> s.producer.AwaitingNext?)
    && (s.producerDone <==> s.producer.AwaitingReturn? || s.producer.Resolved? || s.producer.Rejected?)
    && (s.producer.AwaitingNext? && !s.stopped ==> |s.queue| < job.capacity)
    && (s.producer.Asleep? ==> !s.stopped && |s.queue| >= job.capacity)
    && (s.consumer.Sleeping? ==> !s.stopped && |s.queue| == 0 && !s.producerDone)
    && (s.producer.AwaitingReturn? || s.producer.Rejected? ==> s.stopped)
    && (s.consumer.Joining? ==> s.producerDone && |s.queue| == 0)
    && (s.consumer.Closing? ==> s.stopped && !s.pendingNext)
  }

  ghost predicate ItemsGood<T>(job: Job<T>, s: State<T>) {
    && |s.queue| <= job.capacity
    && s.taken <= |job.source| && |s.output| <= s.taken
    && s.output == job.source[..|s.output|]
    && (!s.stopped ==> s.output + s.queue == job.source[..s.taken])
    && (s.stopped ==> s.queue == [])
  }

  ghost predicate EndGood<T>(job: Job<T>, s: State<T>) {
    && (s.producerError.Some? ==> s.producerDone && job.ending == Throws(s.producerError.value))
    && (!s.interrupted && s.producerDone ==>
          && s.taken == |job.source| && s.producer.Resolved?
          && (job.ending.Throws? ==> s.producerError == Some(job.ending.truthy)))
    && (s.stopped && !s.interrupted ==> s.consumer.Closing? || s.consumer.Ended?)
    && ((s.consumer.Closing? || s.consumer.Ended?) && !s.interrupted ==>
          && s.producerDone && s.output == job.source
          && ((if s.consumer.Closing? then s.consumer.result else s.consumer.outcome).Threw? <==>
                job.ending == Throws(true)))
  }

  ghost predicate Inv<T>(job: Job<T>, s: State<T>) {
    SlotsGood(job, s) && ItemsGood(job, s) && EndGood(job, s)
  }

  /** The producer runs on from a state in which it is not asleep. */
  lemma ProducerLoopKeepsInv<T>(job: Job<T>, s: State<T>)
    requires Inv(job, s.(producer := Woken)) && !s.pendingNext && !s.producerDone
    ensures Inv(job, ProducerLoop(job, s))
  {
  }

  lemma SourceYieldsKeepsInv<T>(job: Job<T>, s: State<T>)
    requires Inv(job, s) && Step(job, s, SourceYields).Some?
    ensures Inv(job, Step(job, s, SourceYields).value)
  {
    var s' := s.(pendingNext := false, taken := s.taken + 1);
    if !s.stopped {
      var pushed := WakeConsumer(s'.(queue := s.queue + [job.source[s.taken]]));
      assert s.output + pushed.queue == (s.output + s.queue) + [job.source[s.taken]];
      ProducerLoopKeepsInv(job, pushed);
    }
  }

  lemma ConsumerLoopKeepsInv<T>(job: Job<T>, s: State<T>)
    requires Inv(job, s.(consumer := Suspended)) && !s.consumer.Closing? && !s.consumer.Ended?
    ensures Inv(job, ConsumerLoop(s))
  {
    if !s.stopped && |s.queue| > 0 {
      assert s.output + s.queue == (s.output + [s.queue[0]]) + s.queue[1..];
    }
  }

  lemma PumpSettledKeepsInv<T>(job: Job<T>, s: State<T>)
    requires Inv(job, s) && Step(job, s, PumpSettled).Some?
    ensures Inv(job, Step(job, s, PumpSettled).value)
  {
  }

  lemma CallerKeepsInv<T>(job: Job<T>, s: State<T>, e: Event)
    requires Inv(job, s) && (e.ReturnCalled? || e.Aborted?) && Step(job, s, e).Some?
    ensures Inv(job, Step(job, s, e).value)
  {
  }

  lemma StepKeepsInv<T>(job: Job<T>, s: State<T>, e: Event)
    requires Inv(job, s) && Step(job, s, e).Some?
    ensures Inv(job, Step(job, s, e).value)
  {
    match e
    case SourceYields => SourceYieldsKeepsInv(job, s);
    case SourceEnds =>
    case SourceReturned(_) =>
    case ProducerResumes => ProducerLoopKeepsInv(job, s);
    case ConsumerResumes => ConsumerLoopKeepsInv(job, s);
    case NextCalled => ConsumerLoopKeepsInv(job, s);
    case ReturnCalled => CallerKeepsInv(job, s, e);
    case PumpSettled => PumpSettledKeepsInv(job, s);
    case Aborted => CallerKeepsInv(job, s, e);
  }

  lemma {:induction false} RunKeepsInv<T>(job: Job<T>, s: State<T>, events: seq<Event>)
    requires Inv(job, s) && Run(job, s, events).Some?
    ensures Inv(job, Run(job, s, events).value)
    decreases |events|
  {
    if |events| > 0 {
      StepKeepsInv(job, s, events[0]);
      RunKeepsInv(job, Step(job, s, events[0]).value, events[1..]);
    }
  }

  lemma ReachableInv<T>(job: Job<T>, aborted: bool, events: seq<Event>)
    requires Run(job, Start(job, aborted), events).Some?
    ensures Inv(job, Run(job, Start(job, aborted), events).value)
  {
    ProducerLoopKeepsInv(job, State([], 0, false, aborted, false, None, Woken, Fresh, [], aborted));
    RunKeepsInv(job, Start(job, aborted), events);
  }

  // ---- The guarantees ----

  /** The buffer is bounded, the caller gets the source's items in order, and while nobody stops it none is lost. */
  lemma OrderAndCapacity<T>(job: Job<T>, aborted: bool, events: seq<Event>)
    requires Run(job, Start(job, aborted), events).Some?
    ensures var s := Run(job, Start(job, aborted), events).value;
            && |s.queue| <= job.capacity
            && s.output <= job.source && s.taken <= |job.source|
            && (!s.stopped ==> s.output + s.queue == job.source[..s.taken])
  {
    ReachableInv(job, aborted, events);
  }

  /**
   * Unless the caller interrupts, the iteration ends only after every item was delivered, and it
   * throws exactly when the source threw a truthy value: a falsy one is taken for a normal end.
   */
  lemma EndsAfterEverything<T>(job: Job<T>, aborted: bool, events: seq<Event>)
    requires Run(job, Start(job, aborted), events).Some?
    requires var s := Run(job, Start(job, aborted), events).value; s.consumer.Ended? && !s.interrupted
    ensures var s := Run(job, Start(job, aborted), events).value;
            && s.output == job.source
            && (s.consumer.outcome.Threw? <==> job.ending == Throws(true))
  {
    ReachableInv(job, aborted, events);
  }

  /** A producer that ends because it was stopped asks the source to return, and waits for that; any other just ends. */
  lemma StoppedSourceReturns<T>(job: Job<T>, s: State<T>, e: Event)
    requires Inv(job, s) && Step(job, s, e).Some?
    ensures var t := Step(job, s, e).value;
            && (!s.producerDone && t.producerDone ==> t.producer == if t.stopped then AwaitingReturn else Resolved)
            && (s.producer.AwaitingReturn? && t.producer != s.producer ==>
                  exists ok :: e == SourceReturned(ok) && t.producer == if ok then Resolved else Rejected)
            && (s.producer.Resolved? || s.producer.Rejected? ==> t.producer == s.producer)
  {
    if e.SourceReturned? {
      assert e == SourceReturned(e.ok);
    }
  }

  /**
   * Whoever closes the iteration waits for the producer, but never for the source's next item; a source
   * that fails to return makes a waiting close throw.
   */
  lemma ClosingDoesNotWaitForItems<T>(job: Job<T>, aborted: bool, events: seq<Event>)
    requires Run(job, Start(job, aborted), events).Some?
    ensures var s := Run(job, Start(job, aborted), events).value;
            && (s.consumer.Closing? ==> !s.producer.AwaitingNext?)
            && (s.consumer.Suspended? ==>
                  && Step(job, s, ReturnCalled).Some?
                  && var t := Step(job, s, ReturnCalled).value;
                  && t.stopped && t.interrupted
                  && t.consumer == if s.producer.AwaitingNext? then Ended(Returned) else Closing(Returned))
            && (s.consumer.Closing? && s.producer.Rejected? ==>
                  && Step(job, s, PumpSettled).Some?
                  && Step(job, s, PumpSettled).value.consumer == Ended(Threw))
            && (s.consumer.Joining? && s.producer.Rejected? ==>
                  && Step(job, s, PumpSettled).Some?
                  && Step(job, s, PumpSettled).value.consumer == Closing(Threw))
  {
    ReachableInv(job, aborted, events);
  }

  // ---- The end is reached ----

  /** The next event when the caller keeps asking and the source keeps answering. */
  function NextEvent<T>(job: Job<T>, s: State<T>): Event {
    match s.consumer
    case Roused => ConsumerResumes
    case Sleeping =>
      if s.producer.Woken? then ProducerResumes
      else if s.taken < |job.source| then SourceYields
      else SourceEnds
    case Joining => PumpSettled
    case Closing(_) => PumpSettled
    case _ => NextCalled
  }

  function Phase<T>(s: State<T>): nat {
    match s.consumer
    case Sleeping => if s.producer.Woken? then 4 else 3
    case Joining => 2
    case Closing(_) => 1
    case Ended(_) => 0
    case _ => 5
  }

  function OneIf(b: bool): nat {
    if b then 1 else 0
  }

  /** That event is possible, interrupts nothing and brings the end nearer. */
  lemma NextEventAdvances<T>(job: Job<T>, s: State<T>)
    requires Inv(job, s) && job.capacity >= 1 && !s.interrupted && !s.consumer.Ended?
    ensures Step(job, s, NextEvent(job, s)).Some?
    ensures var t := Step(job, s, NextEvent(job, s)).value;
            && !t.interrupted
            && (|s.output| < |t.output|
                || (|s.output| == |t.output| && s.taken < t.taken)
                || (|s.output| == |t.output| && s.taken == t.taken && !s.producerDone && t.producerDone)
                || (|s.output| == |t.output| && s.taken == t.taken && s.producerDone == t.producerDone
                    && Phase(t) < Phase(s)))
  {
  }

  lemma {:induction false} SomeRunEnds<T>(job: Job<T>, s: State<T>) returns (events: seq<Event>)
    requires Inv(job, s) && job.capacity >= 1 && !s.interrupted
    ensures EndsAfter(job, s, events)
    decreases |job.source| - |s.output|, |job.source| - s.taken, OneIf(!s.producerDone), Phase(s)
  {
    if s.consumer.Ended? {
      events := [];
    } else {
      var e := NextEvent(job, s);
      NextEventAdvances(job, s);
      StepKeepsInv(job, s, e);
      var rest := SomeRunEnds(job, Step(job, s, e).value);
      events := [e] + rest;
      assert events[1..] == rest;
    }
  }

  /** The events end the iteration and nobody interrupts it. */
  ghost predicate EndsAfter<T>(job: Job<T>, s: State<T>, events: seq<Event>) {
    && Run(job, s, events).Some?
    && Run(job, s, events).value.consumer.Ended?
    && !Run(job, s, events).value.interrupted
  }

  ghost predicate CanEnd<T>(job: Job<T>, s: State<T>) {
    exists events :: EndsAfter(job, s, events)
  }

  ghost predicate Uninterrupted<T>(job: Job<T>, aborted: bool, before: seq<Event>) {
    Run(job, Start(job, aborted), before).Some? && !Run(job, Start(job, aborted), before).value.interrupted
  }

  /**
   * From every reachable state that nobody has interrupted the iteration can still end uninterrupted,
   * and then has delivered everything, exactly when the buffer has room for an item.
   */
  lemma CanEndNeedsRoom<T>(job: Job<T>)
    ensures (forall aborted, before :: Uninterrupted(job, aborted, before) ==>
                                         CanEnd(job, Run(job, Start(job, aborted), before).value))
            <==> job.capacity >= 1
  {
    if job.capacity >= 1 {
      forall aborted, before | Uninterrupted(job, aborted, before)
        ensures CanEnd(job, Run(job, Start(job, aborted), before).value)
      {
        ReachableInv(job, aborted, before);
        var events := SomeRunEnds(job, Run(job, Start(job, aborted), before).value);
      }
    } else {
      assert Run(job, Start(job, false), []) == Some(Start(job, false));
      assert Uninterrupted(job, false, []);
      forall events | Run(job, Start(job, false), events).Some?
        ensures !EndsAfter(job, Start(job, false), events)
      {
        RunStaysStuck(job, Start(job, false), events);
      }
    }
  }

  /** With no room the producer never runs, so the consumer waits for ever unless someone interrupts. */
  predicate Stuck<T>(s: State<T>) {
    s.interrupted || (&& s.producer.Asleep? && (s.consumer.Fresh? || s.consumer.Sleeping?)
                      && s.queue == [] && !s.stopped && !s.producerDone)
  }

  lemma {:induction false} RunStaysStuck<T>(job: Job<T>, s: State<T>, events: seq<Event>)
    requires Stuck(s) && Run(job, s, events).Some?
    ensures Stuck(Run(job, s, events).value)
    decreases |events|
  {
    if |events| > 0 {
      StepStaysStuck(job, s, events[0]);
      RunStaysStuck(job, Step(job, s, events[0]).value, events[1..]);
    }
  }

  lemma StepStaysStuck<T>(job: Job<T>, s: State<T>, e: Event)
    requires Stuck(s) && Step(job, s, e).Some?
    ensures Stuck(Step(job, s, e).value)
  {
  }

  // ---- Stopping ----

  /** Whoever interrupts has stopped the buffer or ended the iteration. */
  predicate InterruptStops<T>(s: State<T>) {
    s.interrupted && !s.consumer.Ended? ==> s.stopped
  }

  lemma {:induction false} RunKeepsStops<T>(job: Job<T>, s: State<T>, events: seq<Event>)
    requires InterruptStops(s) && Run(job, s, events).Some?
    ensures InterruptStops(Run(job, s, events).value)
    decreases |events|
  {
    if |events| > 0 {
      StepKeepsStops(job, s, events[0]);
      RunKeepsStops(job, Step(job, s, events[0]).value, events[1..]);
    }
  }

  lemma StepKeepsStops<T>(job: Job<T>, s: State<T>, e: Event)
    requires InterruptStops(s) && Step(job, s, e).Some?
    ensures InterruptStops(Step(job, s, e).value)
  {
  }

  /** The next event once the buffer is stopped: the consumer closes, then the producer returns the source. */
  function StoppingEvent<T>(job: Job<T>, s: State<T>): Event {
    match s.consumer
    case Fresh => NextCalled
    case Suspended => NextCalled
    case Roused => ConsumerResumes
    case _ =>
      match s.producer
      case Woken => ProducerResumes
      case AwaitingNext => if s.taken < |job.source| then SourceYields else SourceEnds
      case AwaitingReturn => SourceReturned(true)
      case _ => PumpSettled
  }

  function ConsumerLeft<T>(s: State<T>): nat {
    match s.consumer
    case Joining => 2
    case Closing(_) => 1
    case Ended(_) => 0
    case _ => 3
  }

  function ProducerLeft<T>(s: State<T>): nat {
    match s.producer
    case Woken => 2
    case AwaitingNext => 2
    case AwaitingReturn => 1
    case Resolved => 0
    case Rejected => 0
    case Asleep => 3
  }

  lemma StoppingAdvances<T>(job: Job<T>, s: State<T>)
    requires Inv(job, s) && s.stopped && !s.consumer.Ended?
    ensures Step(job, s, StoppingEvent(job, s)).Some?
    ensures var t := Step(job, s, StoppingEvent(job, s)).value;
            && t.stopped && t.output == s.output
            && (ConsumerLeft(t) < ConsumerLeft(s)
                || (ConsumerLeft(t) == ConsumerLeft(s) && ProducerLeft(t) < ProducerLeft(s)))
  {
  }

  /**
   * However it was stopped, by an abort or an early return, at any moment and for any capacity, the
   * iteration can still end, and hands out nothing more.
   */
  lemma {:induction false} StoppedRunEnds<T>(job: Job<T>, s: State<T>) returns (events: seq<Event>)
    requires Inv(job, s) && (s.stopped || s.consumer.Ended?)
    ensures Run(job, s, events).Some?
    ensures Run(job, s, events).value.consumer.Ended? && Run(job, s, events).value.output == s.output
    decreases ConsumerLeft(s), ProducerLeft(s)
  {
    if s.consumer.Ended? {
      events := [];
    } else {
      var e := StoppingEvent(job, s);
      StoppingAdvances(job, s);
      StepKeepsInv(job, s, e);
      var rest := StoppedRunEnds(job, Step(job, s, e).value);
      events := [e] + rest;
      assert events[1..] == rest;
    }
  }

  lemma InterruptedCanEnd<T>(job: Job<T>, aborted: bool, before: seq<Event>) returns (after: seq<Event>)
    requires Run(job, Start(job, aborted), before).Some? && Run(job, Start(job, aborted), before).value.interrupted
    ensures var s := Run(job, Start(job, aborted), before).value;
            && Run(job, s, after).Some?
            && Run(job, s, after).value.consumer.Ended? && Run(job, s, after).value.output == s.output
  {
    ReachableInv(job, aborted, before);
    RunKeepsStops(job, Start(job, aborted), before);
    after := StoppedRunEnds(job, Run(job, Start(job, aborted), before).value);
  }

  /** A run in which the source throws a falsy value and the iteration ends normally, as if it had finished. */
  lemma FalsyThrowEndsNormally<T>(job: Job<T>) returns (events: seq<Event>)
    requires job.capacity >= 1 && job.ending == Throws(false)
    ensures EndsAfter(job, Start(job, false), events)
    ensures var s := Run(job, Start(job, false), events).value;
            s.consumer == Ended(Returned) && s.output == job.source
  {
    assert Run(job, Start(job, false), []) == Some(Start(job, false));
    ReachableInv(job, false, []);
    events := SomeRunEnds(job, Start(job, false));
    EndsAfterEverything(job, false, events);
  }

  ghost predicate BothAsleep<T>(s: State<T>) {
    s.producer.Asleep? && s.consumer.Sleeping?
  }

  /** Producer and consumer can both be asleep exactly when the buffer has no room at all. */
  lemma NeverBothAsleep<T>(job: Job<T>)
    ensures (forall aborted, events :: Run(job, Start(job, aborted), events).Some?
               ==> !BothAsleep(Run(job, Start(job, aborted), events).value))
            <==> job.capacity >= 1
  {
    if job.capacity >= 1 {
      forall aborted, events | Run(job, Start(job, aborted), events).Some?
        ensures !BothAsleep(Run(job, Start(job, aborted), events).value)
      {
        ReachableInv(job, aborted, events);
      }
    } else {
      var events := NoRoom(job);
      var run := Run(job, Start(job, false), events);
      assert run.Some? && BothAsleep(run.value);
    }
  }

  lemma NoRoom<T>(job: Job<T>) returns (events: seq<Event>)
    requires job.capacity == 0
    ensures Run(job, Start(job, false), events).Some? && BothAsleep(Run(job, Start(job, false), events).value)
  {
    events := [NextCalled];
    var s := Start(job, false);
    assert Step(job, s, events[0]) == Some(ConsumerLoop(s));
    assert Run(job, ConsumerLoop(s), events[1..]) == Some(ConsumerLoop(s));
  }

  /**
   * No wake-up is lost: while the consumer sleeps the producer is about to run or waits for the source
   * alone, whose answer rouses the consumer; while the producer sleeps it is the caller's turn.
   */
  lemma SleepersAreWoken<T>(job: Job<T>, aborted: bool, events: seq<Event>)
    requires job.capacity >= 1 && Run(job, Start(job, aborted), events).Some?
    ensures var s := Run(job, Start(job, aborted), events).value;
            && (s.consumer.Sleeping? ==> s.producer.AwaitingNext? || s.producer.Woken?)
            && (s.consumer.Sleeping? && Step(job, s, SourceYields).Some? ==>
                  Step(job, s, SourceYields).value.consumer.Roused?)
            && (s.consumer.Sleeping? && Step(job, s, SourceEnds).Some? ==>
                  Step(job, s, SourceEnds).value.consumer.Roused?)
            && (s.producer.AwaitingNext? ==> Step(job, s, SourceYields).Some? || Step(job, s, SourceEnds).Some?)
            && (s.producer.Asleep? ==>
                  s.consumer.Fresh? || s.consumer.Suspended? || s.consumer.Roused? || s.interrupted)
            && (s.producer.Asleep? ==> |s.queue| > 0)
            && (s.producer.Asleep? && (s.consumer.Suspended? || s.consumer.Roused?) ==>
                  ConsumerLoop(s).producer.Woken? && ConsumerLoop(s).output == s.output + [s.queue[0]])
  {
    ReachableInv(job, aborted, events);
  }
}
