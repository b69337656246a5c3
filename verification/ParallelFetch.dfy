/**
 * The parallel download: windows of one object fetched by concurrent range requests, kept in a
 * bounded look-ahead buffer, and enqueued in order by a consumer that sleeps and is woken.
 * Callbacks run to completion; each event below is one such run.
 */
module ParallelFetch {
  import opened Bytes
  import opened RangeServer

  const MAX_REQUEST_ATTEMPTS: nat := 4

  // ---- One range request, retried ----

  datatype Reply = NetworkError | Aborted | Status(code: nat, response: Option<Response>)

  datatype FetchResult = Answered(reply: Reply) | AbortError | Failed

  predicate Retryable(code: nat) {
    code in {408, 425, 429, 500, 502, 503, 504, 520, 521, 522, 523, 524}
  }

  predicate Transient(reply: Reply) {
    reply.NetworkError? || (reply.Status? && Retryable(reply.code))
  }

  /**
   * `replies(i)` is what attempt `i` meets. Retries transient trouble, at most four attempts in all;
   * the last attempt's status is handed over as it is, its network failure becomes an error.
   */
  method FetchRangeWithRetry(replies: nat -> Reply) returns (r: FetchResult, attempts: nat)
    ensures 1 <= attempts <= 4
    ensures forall i :: 1 <= i < attempts ==> Transient(replies(i))
    ensures Transient(replies(attempts)) ==> attempts == 4
    ensures r == match replies(attempts)
                 case NetworkError => Failed
                 case Aborted => AbortError
                 case Status(_, _) => Answered(replies(attempts))
  {
    attempts := 1;
    while true
      invariant 1 <= attempts <= MAX_REQUEST_ATTEMPTS
      invariant forall i :: 1 <= i < attempts ==> Transient(replies(i))
      decreases MAX_REQUEST_ATTEMPTS - attempts
    {
      match replies(attempts) {
        case Aborted =>
          return AbortError, attempts;
        case Status(code, _) =>
          if !(Retryable(code) && attempts < MAX_REQUEST_ATTEMPTS) {
            return Answered(replies(attempts)), attempts;
          }
        case NetworkError =>
          if attempts >= MAX_REQUEST_ATTEMPTS {
            return Failed, attempts;
          }
      }
      attempts := attempts + 1;
    }
  }

  /** Worth retrying: a time-out, "too early", a rate limit, and the server errors but "not implemented". */
  lemma RetryableCodes(code: nat)
    ensures Retryable(code) <==>
              code == 408 || code == 425 || code == 429 || (500 <= code <= 504 && code != 501) || 520 <= code <= 524
  {
  }

  // ---- The ordered window stream ----

  /** A job downloads `data` through windows of `windowSize` bytes. */
  datatype Job = Job(data: Bytes, windowSize: nat, windowCount: nat, concurrency: nat) {
    /** What the creation of the stream establishes. */
    predicate Valid() {
      |data| > windowSize > 0 && concurrency > 0 && windowCount == CeilDiv(|data|, windowSize)
    }

    function MaxAhead(): nat {
      concurrency + 2
    }
  }

  /** The request for the window that starts at `start`; anything but a partial response fails the download. */
  function RequestWindow(data: Bytes, start: nat, windowSize: nat): Option<Bytes>
    requires windowSize > 0
  {
    if start >= |data| then None
    else
      var end := Min(start + windowSize, |data|) - 1;
      var r := Respond(data, Some(RangeHeader(start, end)));
      if r.Partial? then Some(r.body) else None
  }

  function WindowBody(job: Job, index: nat): Option<Bytes>
    requires job.windowSize > 0
  {
    RequestWindow(job.data, index * job.windowSize, job.windowSize)
  }

  /** A fetch: waiting for its body, rejected, or settled with its final callback still to run. */
  datatype Fetch = Requesting | Rejected | Settled

  datatype Pull = Idle | Waiting | Woken

  datatype StreamStatus = Open | Closed | Errored | Abandoned

  datatype State = State(
    buffers: map<nat, Bytes>,
    nextToEnqueue: nat,
    nextToSchedule: nat,
    inFlight: nat,
    fetches: map<nat, Fetch>,
    failed: bool,
    aborted: bool,
    pull: Pull,               // Waiting exactly when a wake-up callback is registered
    enqueued: seq<Bytes>,
    status: StreamStatus
  )

  datatype Event =
    | Pulled               // the stream asks for the next chunk
    | Resumed              // a woken consumer runs on
    | Arrived(index: nat)  // a window's body is complete
    | Dropped(index: nat)  // an aborted fetch gives up silently
    | Broke(index: nat)    // a fetch rejects
    | Caught(index: nat)   // its rejection handler runs
    | Finished(index: nat) // its final callback runs
    | Cancel               // the reader cancels the stream

  function Schedule(s: State): State {
    s.(nextToSchedule := s.nextToSchedule + 1, inFlight := s.inFlight + 1,
       fetches := s.fetches[s.nextToSchedule := Requesting])
  }

  /** Schedules windows while the limits on requests in flight and on look-ahead allow. */
  function Pump(job: Job, s: State): State
    decreases job.windowCount - s.nextToSchedule
  {
    if !s.failed && !s.aborted && s.inFlight < job.concurrency && s.nextToSchedule < job.windowCount
       && s.nextToSchedule - s.nextToEnqueue < job.MaxAhead()
    then Pump(job, Schedule(s))
    else s
  }

  /** Takes the next window in order out of the buffer. */
  function Enqueue(s: State): State
    requires s.nextToEnqueue in s.buffers
  {
    s.(buffers := s.buffers - {s.nextToEnqueue}, nextToEnqueue := s.nextToEnqueue + 1, pull := Idle)
  }

  /** One turn of the consumer's loop. */
  function Consume(job: Job, s: State): State {
    if s.failed then s.(status := if s.status.Open? then Errored else s.status, pull := Idle)
    else if s.aborted then s.(pull := Idle)
    else if s.nextToEnqueue >= job.windowCount then s.(status := Closed, pull := Idle)
    else if s.nextToEnqueue in s.buffers then
      var ready := s.buffers[s.nextToEnqueue];
      Pump(job, Enqueue(s)).(enqueued := s.enqueued + [ready])
    else s.(pull := Waiting)
  }

  function SignalConsumer(s: State): State {
    if s.pull.Waiting? then s.(pull := Woken) else s
  }

  /** The state once the stream has been created with its first window in hand, and started. */
  function Start(job: Job): State
    requires job.Valid()
  {
    Pump(job, State(map[0 := job.data[..job.windowSize]], 0, 1, 0, map[], false, false, Idle, [], Open))
  }

  function Step(job: Job, s: State, e: Event): Option<State>
    requires job.windowSize > 0
  {
    match e
    case Pulled => if s.pull.Idle? && s.status.Open? then Some(Consume(job, s)) else None
    case Resumed => if s.pull.Woken? then Some(Consume(job, s)) else None
    case Arrived(i) =>
      if i in s.fetches && s.fetches[i].Requesting? && WindowBody(job, i).Some?
      then Some(s.(buffers := s.buffers[i := WindowBody(job, i).value], fetches := s.fetches[i := Settled]))
      else None
    case Dropped(i) =>
      if i in s.fetches && s.fetches[i].Requesting? && s.aborted
      then Some(s.(fetches := s.fetches[i := Settled]))
      else None
    case Broke(i) =>
      if i in s.fetches && s.fetches[i].Requesting? then Some(s.(fetches := s.fetches[i := Rejected])) else None
    case Caught(i) =>
      if i in s.fetches && s.fetches[i].Rejected?
      then Some(s.(failed := true, aborted := true, buffers := map[], fetches := s.fetches[i := Settled]))
      else None
    case Finished(i) =>
      if i in s.fetches && s.fetches[i].Settled? && s.inFlight > 0
      then Some(Pump(job, SignalConsumer(s.(inFlight := s.inFlight - 1, fetches := s.fetches - {i}))))
      else None
    case Cancel =>
      if s.status.Open? then Some(SignalConsumer(s.(aborted := true, buffers := map[], status := Abandoned))) else None
  }

  function Run(job: Job, s: State, events: seq<Event>): Option<State>
    requires job.windowSize > 0
    decreases |events|
  {
    if |events| == 0 then Some(s)
    else
      match Step(job, s, events[0])
      case None => None
      case Some(s') => Run(job, s', events[1..])
  }

  // ---- What every step keeps ----

  ghost predicate Bounded(job: Job, s: State) {
    && s.inFlight == |s.fetches| <= job.concurrency
    && s.nextToEnqueue <= s.nextToSchedule <= job.windowCount
    && s.nextToSchedule - s.nextToEnqueue <= job.MaxAhead()
    && (forall i :: i in s.fetches ==> i < s.nextToSchedule)
  }

  /** Windows scheduled but not enqueued are buffered or still being fetched, unless the download is over. */
  ghost predicate Covered(windows: seq<Bytes>, s: State) {
    && (forall i :: i in s.buffers ==> i < s.nextToSchedule && i < |windows| && s.buffers[i] == windows[i])
    && (!s.failed && !s.aborted ==>
          forall i: nat :: s.nextToEnqueue <= i < s.nextToSchedule ==> OnItsWay(s.buffers, s.fetches, i))
  }

  ghost predicate OnItsWay(buffers: map<nat, Bytes>, fetches: map<nat, Fetch>, i: nat) {
    i in buffers || (i in fetches && !fetches[i].Settled?)
  }

  /** The pump has nothing more to do. */
  ghost predicate Saturated(job: Job, s: State) {
    s.failed || s.aborted || s.inFlight >= job.concurrency || s.nextToSchedule >= job.windowCount
    || s.nextToSchedule - s.nextToEnqueue >= job.MaxAhead()
  }

  ghost predicate InOrder(windows: seq<Bytes>, s: State) {
    && s.nextToEnqueue <= |windows| && s.enqueued == windows[..s.nextToEnqueue]
    && (s.status.Closed? ==> s.nextToEnqueue == |windows|)
  }

  ghost predicate Inv(job: Job, windows: seq<Bytes>, s: State) {
    && Bounded(job, s) && Covered(windows, s) && Saturated(job, s) && InOrder(windows, s)
    && (s.failed ==> s.aborted)
    && (s.pull.Waiting? ==> s.fetches != map[])
  }

  lemma {:induction false} PumpKeeps(job: Job, windows: seq<Bytes>, s: State)
    requires Bounded(job, s) && Covered(windows, s)
    ensures var s' := Pump(job, s);
            && Bounded(job, s') && Covered(windows, s') && Saturated(job, s')
            && s' == s.(nextToSchedule := s'.nextToSchedule, inFlight := s'.inFlight, fetches := s'.fetches)
            && s.fetches.Keys <= s'.fetches.Keys
    decreases job.windowCount - s.nextToSchedule
  {
    if !Saturated(job, s) {
      ScheduleKeeps(job, windows, s);
      PumpKeeps(job, windows, Schedule(s));
    }
  }

  lemma ScheduleKeeps(job: Job, windows: seq<Bytes>, s: State)
    requires Bounded(job, s) && Covered(windows, s) && !Saturated(job, s)
    ensures Bounded(job, Schedule(s)) && Covered(windows, Schedule(s))
  {
    var s' := Schedule(s);
    assert s.nextToSchedule !in s.fetches;
    forall i: nat | s'.nextToEnqueue <= i < s'.nextToSchedule
      ensures OnItsWay(s'.buffers, s'.fetches, i)
    {
      assert i < s.nextToSchedule ==> OnItsWay(s.buffers, s.fetches, i);
    }
  }

  /** The window the server sends back is the window of that index. */
  lemma ServedWindow(job: Job, index: nat)
    requires job.Valid() && |job.data| <= MAX_SAFE_INTEGER && index < job.windowCount
    ensures |Cut(job.data, job.windowSize)| == job.windowCount
    ensures WindowBody(job, index) == Some(Cut(job.data, job.windowSize)[index])
  {
    CutCount(job.data, job.windowSize);
    CutAt(job.data, job.windowSize, index);
    RequestedWindow(job.data, index * job.windowSize, job.windowSize);
  }

  lemma RequestedWindow(data: Bytes, start: nat, windowSize: nat)
    requires start < |data| <= MAX_SAFE_INTEGER && windowSize > 0
    ensures RequestWindow(data, start, windowSize) == Some(data[start..Min(start + windowSize, |data|)])
  {
    RespondToRequest(data, start, Min(start + windowSize, |data|) - 1);
  }

  lemma EnqueueKeeps(job: Job, windows: seq<Bytes>, s: State)
    requires Inv(job, windows, s) && |windows| == job.windowCount
    requires s.nextToEnqueue < job.windowCount && s.nextToEnqueue in s.buffers
    ensures Bounded(job, Enqueue(s)) && Covered(windows, Enqueue(s))
    ensures s.enqueued + [s.buffers[s.nextToEnqueue]] == windows[..s.nextToEnqueue + 1]
  {
    var k := s.nextToEnqueue;
    assert windows[..k + 1] == windows[..k] + [windows[k]];
    if !s.failed && !s.aborted {
      forall i: nat | k < i < s.nextToSchedule
        ensures OnItsWay(Enqueue(s).buffers, s.fetches, i)
      {
        assert OnItsWay(s.buffers, s.fetches, i);
      }
    }
  }

  lemma ConsumeKeepsInv(job: Job, windows: seq<Bytes>, s: State)
    requires Inv(job, windows, s) && |windows| == job.windowCount && job.concurrency > 0
    ensures Inv(job, windows, Consume(job, s))
  {
    if !s.failed && !s.aborted && s.nextToEnqueue < job.windowCount {
      if s.nextToEnqueue in s.buffers {
        EnqueueKeeps(job, windows, s);
        PumpKeeps(job, windows, Enqueue(s));
      } else {
        assert s.nextToEnqueue < s.nextToSchedule ==> OnItsWay(s.buffers, s.fetches, s.nextToEnqueue);
        assert s.nextToEnqueue in s.fetches.Keys || s.inFlight > 0;
      }
    }
  }

  lemma ArrivedKeepsInv(job: Job, s: State, i: nat)
    requires job.Valid() && |job.data| <= MAX_SAFE_INTEGER
    requires var windows := Cut(job.data, job.windowSize); |windows| == job.windowCount && Inv(job, windows, s)
    requires i in s.fetches && Step(job, s, Arrived(i)).Some?
    ensures Inv(job, Cut(job.data, job.windowSize), Step(job, s, Arrived(i)).value)
  {
    ServedWindow(job, i);
    var s' := Step(job, s, Arrived(i)).value;
    assert s'.fetches.Keys == s.fetches.Keys;
    StillOnTheirWay(s, s');
  }

  lemma StillOnTheirWay(s: State, s': State)
    requires !s.failed && !s.aborted ==>
               forall i: nat :: s.nextToEnqueue <= i < s.nextToSchedule ==> OnItsWay(s.buffers, s.fetches, i)
    requires s'.nextToEnqueue == s.nextToEnqueue && s'.nextToSchedule == s.nextToSchedule
    requires s.failed || s.aborted ==> s'.failed || s'.aborted
    requires !s'.failed && !s'.aborted ==>
               && (forall i :: i in s.buffers ==> i in s'.buffers)
               && (forall i :: i in s.fetches && !s.fetches[i].Settled? ==>
                     i in s'.buffers || (i in s'.fetches && !s'.fetches[i].Settled?))
    ensures !s'.failed && !s'.aborted ==>
              forall i: nat :: s'.nextToEnqueue <= i < s'.nextToSchedule ==> OnItsWay(s'.buffers, s'.fetches, i)
  {
    forall i: nat | !s'.failed && !s'.aborted && s.nextToEnqueue <= i < s.nextToSchedule
      ensures OnItsWay(s'.buffers, s'.fetches, i)
    {
      assert OnItsWay(s.buffers, s.fetches, i);
    }
  }

  lemma FinishedKeepsInv(job: Job, windows: seq<Bytes>, s: State, i: nat)
    requires Inv(job, windows, s) && i in s.fetches && s.fetches[i].Settled? && s.inFlight > 0
    ensures Inv(job, windows, Pump(job, SignalConsumer(s.(inFlight := s.inFlight - 1, fetches := s.fetches - {i}))))
  {
    var s' := SignalConsumer(s.(inFlight := s.inFlight - 1, fetches := s.fetches - {i}));
    assert s'.fetches.Keys == s.fetches.Keys - {i};
    StillOnTheirWay(s, s');
    PumpKeeps(job, windows, s');
  }

  lemma StepKeepsInv(job: Job, s: State, e: Event)
    requires job.Valid() && |job.data| <= MAX_SAFE_INTEGER
    requires var windows := Cut(job.data, job.windowSize); |windows| == job.windowCount && Inv(job, windows, s)
    requires Step(job, s, e).Some?
    ensures Inv(job, Cut(job.data, job.windowSize), Step(job, s, e).value)
  {
    var windows, s' := Cut(job.data, job.windowSize), Step(job, s, e).value;
    match e
    case Pulled => ConsumeKeepsInv(job, windows, s);
    case Resumed => ConsumeKeepsInv(job, windows, s);
    case Arrived(i) => ArrivedKeepsInv(job, s, i);
    case Finished(i) => FinishedKeepsInv(job, windows, s, i);
    case Dropped(i) => assert s'.fetches.Keys == s.fetches.Keys;
    case Broke(i) =>
      assert s'.fetches.Keys == s.fetches.Keys;
      StillOnTheirWay(s, s');
    case Caught(i) => assert s'.fetches.Keys == s.fetches.Keys;
    case Cancel =>
  }

  lemma {:induction false} RunKeepsInv(job: Job, s: State, events: seq<Event>)
    requires job.Valid() && |job.data| <= MAX_SAFE_INTEGER
    requires var windows := Cut(job.data, job.windowSize); |windows| == job.windowCount && Inv(job, windows, s)
    requires Run(job, s, events).Some?
    ensures Inv(job, Cut(job.data, job.windowSize), Run(job, s, events).value)
    decreases |events|
  {
    if |events| > 0 {
      StepKeepsInv(job, s, events[0]);
      RunKeepsInv(job, Step(job, s, events[0]).value, events[1..]);
    }
  }

  lemma ReachableInv(job: Job, events: seq<Event>)
    requires job.Valid() && |job.data| <= MAX_SAFE_INTEGER && Run(job, Start(job), events).Some?
    ensures |Cut(job.data, job.windowSize)| == job.windowCount
    ensures Inv(job, Cut(job.data, job.windowSize), Run(job, Start(job), events).value)
  {
    CutCount(job.data, job.windowSize);
    StartIsGood(job);
    RunKeepsInv(job, Start(job), events);
  }

  lemma StartIsGood(job: Job)
    requires job.Valid() && |Cut(job.data, job.windowSize)| == job.windowCount
    ensures Inv(job, Cut(job.data, job.windowSize), Start(job))
  {
    var windows := Cut(job.data, job.windowSize);
    assert windows[0] == job.data[..job.windowSize];
    PumpKeeps(job, windows, State(map[0 := job.data[..job.windowSize]], 0, 1, 0, map[], false, false, Idle, [], Open));
  }

  /**
   * In every reachable state: never more requests in flight than allowed, never more than two windows
   * beyond that scheduled but not enqueued, and a sleeping consumer always has a request in flight.
   * While nothing has gone wrong, one of the limits is met or every window is scheduled: no slot idles.
   */
  lemma LimitsHold(job: Job, events: seq<Event>)
    requires job.Valid() && |job.data| <= MAX_SAFE_INTEGER && Run(job, Start(job), events).Some?
    ensures var s := Run(job, Start(job), events).value;
            && s.inFlight == |s.fetches| <= job.concurrency
            && s.nextToSchedule - s.nextToEnqueue <= job.concurrency + 2
            && (s.pull.Waiting? ==> s.inFlight > 0)
            && (!s.failed && !s.aborted ==>
                  s.inFlight == job.concurrency || s.nextToSchedule == job.windowCount
                  || s.nextToSchedule - s.nextToEnqueue == job.concurrency + 2)
  {
    ReachableInv(job, events);
    var s := Run(job, Start(job), events).value;
    assert s.fetches != map[] ==> exists i :: i in s.fetches.Keys;
  }

  /** Every request in flight can always make its next move, and its last one wakes a sleeping consumer. */
  lemma FetchesAreNeverStuck(job: Job, events: seq<Event>, i: nat)
    requires job.Valid() && |job.data| <= MAX_SAFE_INTEGER && Run(job, Start(job), events).Some?
    requires i in Run(job, Start(job), events).value.fetches
    ensures var s := Run(job, Start(job), events).value;
            match s.fetches[i]
            case Requesting => Step(job, s, Arrived(i)).Some? && Step(job, s, Broke(i)).Some?
            case Rejected => Step(job, s, Caught(i)).Some?
            case Settled => Step(job, s, Finished(i)).Some? && !Step(job, s, Finished(i)).value.pull.Waiting?
  {
    ReachableInv(job, events);
    FetchCanMove(job, Run(job, Start(job), events).value, i);
  }

  lemma FetchCanMove(job: Job, s: State, i: nat)
    requires job.Valid() && |job.data| <= MAX_SAFE_INTEGER && i in s.fetches && Bounded(job, s)
    ensures match s.fetches[i]
            case Requesting => Step(job, s, Arrived(i)).Some? && Step(job, s, Broke(i)).Some?
            case Rejected => Step(job, s, Caught(i)).Some?
            case Settled => Step(job, s, Finished(i)).Some? && !Step(job, s, Finished(i)).value.pull.Waiting?
  {
    assert i in s.fetches.Keys;
    match s.fetches[i]
    case Requesting => ServedWindow(job, i);
    case Rejected =>
    case Settled => PumpKeepsPull(job, SignalConsumer(s.(inFlight := s.inFlight - 1, fetches := s.fetches - {i})));
  }

  lemma {:induction false} PumpKeepsPull(job: Job, s: State)
    ensures Pump(job, s).pull == s.pull
    decreases job.windowCount - s.nextToSchedule
  {
    if !Saturated(job, s) {
      PumpKeepsPull(job, Schedule(s));
    }
  }

  /** A failure is reported: the consumer's next turn, asked for or woken, errors the stream, and enqueues nothing. */
  lemma FailureIsReported(job: Job, s: State, e: Event)
    requires job.windowSize > 0 && s.failed && s.status.Open?
    requires (e.Pulled? && s.pull.Idle?) || (e.Resumed? && s.pull.Woken?)
    ensures Step(job, s, e) == Some(s.(status := Errored, pull := Idle))
  {
  }

  /** A request that fails ends the download: nothing is buffered any more, and everything else in flight gives up. */
  lemma RequestFails(job: Job, s: State, i: nat)
    requires job.windowSize > 0 && i in s.fetches && s.fetches[i].Rejected?
    ensures Step(job, s, Caught(i)).Some?
    ensures var t := Step(job, s, Caught(i)).value;
            && t.failed && t.aborted && t.buffers == map[]
            && forall k :: k in t.fetches && t.fetches[k].Requesting? ==> Step(job, t, Dropped(k)).Some?
  {
  }

  /** Cancelling drops what is buffered, lets requests in flight give up, and leaves no consumer asleep. */
  lemma CancelLetsGo(job: Job, s: State)
    requires job.windowSize > 0 && s.status.Open?
    ensures Step(job, s, Cancel).Some?
    ensures var t := Step(job, s, Cancel).value;
            && t.aborted && t.buffers == map[] && t.status.Abandoned? && t.enqueued == s.enqueued
            && t.pull == (if s.pull.Waiting? then Woken else s.pull)
            && (t.pull.Woken? && !s.failed ==> Step(job, t, Resumed) == Some(t.(pull := Idle)))
            && forall k :: k in t.fetches && t.fetches[k].Requesting? ==> Step(job, t, Dropped(k)).Some?
  {
  }

  /** In whatever order requests complete, a stream that closes has enqueued exactly the object. */
  lemma ClosedMeansWhole(job: Job, events: seq<Event>)
    requires job.Valid() && |job.data| <= MAX_SAFE_INTEGER && Run(job, Start(job), events).Some?
    ensures var s := Run(job, Start(job), events).value;
            && Flatten(s.enqueued) <= job.data
            && (s.status.Closed? ==> Flatten(s.enqueued) == job.data)
  {
    ReachableInv(job, events);
    var s := Run(job, Start(job), events).value;
    var windows := Cut(job.data, job.windowSize);
    FlattenCut(job.data, job.windowSize);
    FlattenAppend(s.enqueued, windows[s.nextToEnqueue..]);
    assert s.enqueued + windows[s.nextToEnqueue..] == windows;
  }

  // ---- Creating the stream ----

  datatype Created =
    | Gone                       // 404
    | CannotDownload             // any other refusal, or no answer
    | Single(bytes: Bytes)       // one chunk, then the end
    | Windows(job: Job)          // further windows needed

  /** What the first request came to decides: gone, an error, a single chunk, or a stream of windows. */
  function Create(data: Bytes, first: FetchResult, windowSize: nat, concurrency: nat): Created
    requires windowSize > 0
  {
    match first
    case Answered(Status(code, response)) =>
      if code == 404 then Gone
      else if response.None? then CannotDownload
      else FromFirst(data, response.value, windowSize, concurrency)
    case _ => CannotDownload
  }

  function FromFirst(data: Bytes, first: Response, windowSize: nat, concurrency: nat): Created
    requires windowSize > 0
  {
    match first
    case Unsatisfiable(_) => CannotDownload
    case Whole(body) => Single(body)
    case Partial(_, _, total, body) =>
      if total <= |body| then Single(body)
      else Windows(Job(data, windowSize, CeilDiv(total, windowSize), concurrency))
  }

  /** A reply that carries content carries what the server makes of the object for the first window. */
  predicate FromServer(data: Bytes, windowSize: nat, first: FetchResult)
    requires windowSize > 0
  {
    && first.Answered? && first.reply.Status?
    && (first.reply.response.Some? ==>
          first.reply.response.value == Respond(data, Some(RangeHeader(0, windowSize - 1))))
  }

  /**
   * An object of at least one byte is downloadable as soon as the first request is answered with
   * content: at once, or through a well-formed window stream; only status 404 reports it gone.
   */
  lemma CreateSucceeds(data: Bytes, first: FetchResult, windowSize: nat, concurrency: nat)
    requires 0 < windowSize && windowSize - 1 <= MAX_SAFE_INTEGER && concurrency > 0 && |data| > 0
    requires FromServer(data, windowSize, first)
    ensures var c := Create(data, first, windowSize, concurrency);
            if first.reply.code == 404 then c.Gone?
            else if first.reply.response.None? then c.CannotDownload?
            else if |data| <= windowSize then c == Single(data)
            else c.Windows? && c.job.data == data && c.job.Valid()
  {
    RespondToRequest(data, 0, windowSize - 1);
    if |data| <= windowSize {
      assert data[0..|data|] == data;
    }
  }
}
