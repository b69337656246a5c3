/** Which states of the parallel download can still be finished: exactly those in which nothing has gone wrong. */
module DownloadProgress {
  import opened Bytes
  import opened RangeServer
  import opened ParallelFetch

  /** Open, not failed, not cancelled, and no request whose failure is still on its way. */
  ghost predicate Healthy(s: State) {
    s.status.Open? && !s.failed && !s.aborted && forall i :: i in s.fetches ==> !s.fetches[i].Rejected?
  }

  ghost predicate Good(job: Job, s: State) {
    && job.Valid() && |job.data| <= MAX_SAFE_INTEGER
    && |Cut(job.data, job.windowSize)| == job.windowCount
    && Inv(job, Cut(job.data, job.windowSize), s)
    && Healthy(s)
  }

  // ---- What is left to do ----

  function Asked(fetches: map<nat, Fetch>): set<nat> {
    set i | i in fetches && fetches[i].Requesting?
  }

  /** Moves of requests: two for each not scheduled, two for each waiting for its body, one for each settled. */
  function RequestMoves(job: Job, s: State): int {
    2 * (job.windowCount - s.nextToSchedule) + |Asked(s.fetches)| + |s.fetches|
  }

  function Turn(pull: Pull): nat {
    if pull.Waiting? then 0 else 1
  }

  lemma ScheduleMoves(job: Job, s: State)
    requires s.nextToSchedule !in s.fetches
    ensures RequestMoves(job, Schedule(s)) == RequestMoves(job, s)
  {
    MoreAsked(s.fetches, s.nextToSchedule);
  }

  lemma MoreAsked(fetches: map<nat, Fetch>, i: nat)
    requires i !in fetches
    ensures |Asked(fetches[i := Requesting])| == |Asked(fetches)| + 1 && |fetches[i := Requesting]| == |fetches| + 1
  {
    assert Asked(fetches[i := Requesting]) == Asked(fetches) + {i};
    assert fetches[i := Requesting].Keys == fetches.Keys + {i};
    assert |fetches[i := Requesting]| == |fetches[i := Requesting].Keys| && |fetches| == |fetches.Keys|;
  }

  lemma {:induction false} PumpMoves(job: Job, windows: seq<Bytes>, s: State)
    requires Bounded(job, s) && Covered(windows, s)
    ensures RequestMoves(job, Pump(job, s)) == RequestMoves(job, s)
    ensures (forall i :: i in s.fetches ==> !s.fetches[i].Rejected?) ==>
              forall i :: i in Pump(job, s).fetches ==> !Pump(job, s).fetches[i].Rejected?
    decreases job.windowCount - s.nextToSchedule
  {
    if !Saturated(job, s) {
      ScheduleMoves(job, s);
      ScheduleKeeps(job, windows, s);
      PumpMoves(job, windows, Schedule(s));
    }
  }

  lemma FewerAsked(fetches: map<nat, Fetch>, i: nat)
    requires i in fetches && fetches[i].Requesting?
    ensures |Asked(fetches[i := Settled])| == |Asked(fetches)| - 1 && |fetches[i := Settled]| == |fetches|
  {
    assert Asked(fetches[i := Settled]) == Asked(fetches) - {i};
    assert fetches[i := Settled].Keys == fetches.Keys;
    assert |fetches[i := Settled]| == |fetches[i := Settled].Keys| && |fetches| == |fetches.Keys|;
  }

  lemma FewerFetches(fetches: map<nat, Fetch>, i: nat)
    requires i in fetches && fetches[i].Settled?
    ensures Asked(fetches - {i}) == Asked(fetches) && |fetches - {i}| == |fetches| - 1
  {
    assert (fetches - {i}).Keys == fetches.Keys - {i};
    assert |fetches - {i}| == |(fetches - {i}).Keys| && |fetches| == |fetches.Keys|;
  }

  // ---- The next event when everything goes well ----

  /** A consumer's turn enqueues a window, closes the stream, or goes to sleep; nothing goes wrong. */
  lemma ConsumeAdvances(job: Job, s: State)
    requires Good(job, s) && !s.pull.Waiting?
    ensures var t := Consume(job, s);
            t.status.Closed?
            || (Healthy(t) && t.nextToEnqueue > s.nextToEnqueue)
            || (Healthy(t) && t.nextToEnqueue == s.nextToEnqueue && RequestMoves(job, t) == RequestMoves(job, s)
              && t.pull.Waiting?)
  {
    if s.nextToEnqueue < job.windowCount && s.nextToEnqueue in s.buffers {
      var windows := Cut(job.data, job.windowSize);
      EnqueueKeeps(job, windows, s);
      PumpKeeps(job, windows, Enqueue(s));
      PumpMoves(job, windows, Enqueue(s));
    }
  }

  lemma ArrivalAdvances(job: Job, s: State, i: nat)
    requires Good(job, s) && i in s.fetches && s.fetches[i].Requesting?
    ensures Step(job, s, Arrived(i)).Some?
    ensures var t := Step(job, s, Arrived(i)).value;
            Healthy(t) && t.nextToEnqueue == s.nextToEnqueue && RequestMoves(job, t) < RequestMoves(job, s)
  {
    ServedWindow(job, i);
    FewerAsked(s.fetches, i);
  }

  lemma FinishAdvances(job: Job, s: State, i: nat)
    requires Good(job, s) && i in s.fetches && s.fetches[i].Settled?
    ensures Step(job, s, Finished(i)).Some?
    ensures var t := Step(job, s, Finished(i)).value;
            Healthy(t) && t.nextToEnqueue == s.nextToEnqueue && RequestMoves(job, t) < RequestMoves(job, s)
  {
    var windows := Cut(job.data, job.windowSize);
    FewerFetches(s.fetches, i);
    var u := SignalConsumer(s.(inFlight := s.inFlight - 1, fetches := s.fetches - {i}));
    forall k: nat | s.nextToEnqueue <= k < s.nextToSchedule
      ensures OnItsWay(u.buffers, u.fetches, k)
    {
      assert OnItsWay(s.buffers, s.fetches, k);
    }
    PumpKeeps(job, windows, u);
    PumpMoves(job, windows, u);
  }

  /** Some event leads on: it closes the stream, or leaves less to do with nothing gone wrong. */
  lemma SomeEventAdvances(job: Job, s: State) returns (e: Event)
    requires Good(job, s)
    ensures Step(job, s, e).Some?
    ensures var t := Step(job, s, e).value;
            t.status.Closed? || (Healthy(t) && Closer(job, t, s))
  {
    if s.pull.Waiting? {
      var i :| i in s.fetches;
      if s.fetches[i].Requesting? {
        e := Arrived(i);
        ArrivalAdvances(job, s, i);
      } else {
        e := Finished(i);
        FinishAdvances(job, s, i);
      }
    } else {
      e := if s.pull.Idle? then Pulled else Resumed;
      ConsumeAdvances(job, s);
    }
  }

  /** Less is left to do: windows to enqueue, then moves of requests, then the consumer's turn. */
  predicate Closer(job: Job, t: State, s: State) {
    || t.nextToEnqueue > s.nextToEnqueue
    || (t.nextToEnqueue == s.nextToEnqueue && RequestMoves(job, t) < RequestMoves(job, s))
    || (t.nextToEnqueue == s.nextToEnqueue && RequestMoves(job, t) == RequestMoves(job, s)
      && Turn(t.pull) < Turn(s.pull))
  }

  lemma {:induction false} SomeRunCloses(job: Job, s: State) returns (events: seq<Event>)
    requires Good(job, s)
    ensures Run(job, s, events).Some? && Run(job, s, events).value.status.Closed?
    decreases job.windowCount - s.nextToEnqueue, RequestMoves(job, s), Turn(s.pull)
  {
    var e := SomeEventAdvances(job, s);
    var t := Step(job, s, e).value;
    StepKeepsInv(job, s, e);
    if t.status.Closed? {
      events := [e];
      assert events[1..] == [];
    } else {
      var rest := SomeRunCloses(job, t);
      events := [e] + rest;
      assert events[1..] == rest;
    }
  }

  // ---- And from no other state ----

  /** A request that has not settled has nothing buffered, and its window is still to be enqueued. */
  ghost predicate Unsettled(s: State) {
    forall i :: i in s.fetches && !s.fetches[i].Settled? ==> i !in s.buffers && i >= s.nextToEnqueue
  }

  ghost predicate SomeRejected(fetches: map<nat, Fetch>) {
    exists i :: i in fetches && fetches[i].Rejected?
  }

  /** Something has gone wrong before the end. */
  ghost predicate Doomed(s: State) {
    !s.status.Closed? && (s.failed || s.aborted || SomeRejected(s.fetches))
  }

  lemma {:induction false} PumpKeepsUnsettled(job: Job, windows: seq<Bytes>, s: State)
    requires Bounded(job, s) && Covered(windows, s) && Unsettled(s)
    ensures Unsettled(Pump(job, s))
    ensures forall i :: i in s.fetches ==> i in Pump(job, s).fetches && Pump(job, s).fetches[i] == s.fetches[i]
    decreases job.windowCount - s.nextToSchedule
  {
    if !Saturated(job, s) {
      ScheduleKeeps(job, windows, s);
      PumpKeepsUnsettled(job, windows, Schedule(s));
    }
  }

  ghost predicate Sound(job: Job, s: State) {
    && job.Valid() && |job.data| <= MAX_SAFE_INTEGER
    && |Cut(job.data, job.windowSize)| == job.windowCount
    && Inv(job, Cut(job.data, job.windowSize), s)
    && Unsettled(s)
  }

  lemma ConsumeStaysDoomed(job: Job, s: State)
    requires Sound(job, s)
    ensures Unsettled(Consume(job, s))
    ensures Doomed(s) ==> Doomed(Consume(job, s))
  {
    if !s.failed && !s.aborted && s.nextToEnqueue < job.windowCount && s.nextToEnqueue in s.buffers {
      var windows := Cut(job.data, job.windowSize);
      EnqueueKeeps(job, windows, s);
      PumpKeepsUnsettled(job, windows, Enqueue(s));
      PumpKeeps(job, windows, Enqueue(s));
      if i :| i in s.fetches && s.fetches[i].Rejected? {
        assert i in Pump(job, Enqueue(s)).fetches;
      }
    }
  }

  lemma FinishStaysDoomed(job: Job, s: State, i: nat)
    requires Sound(job, s) && Step(job, s, Finished(i)).Some?
    ensures Unsettled(Step(job, s, Finished(i)).value)
    ensures Doomed(s) ==> Doomed(Step(job, s, Finished(i)).value)
  {
    var windows := Cut(job.data, job.windowSize);
    FewerFetches(s.fetches, i);
    var u := SignalConsumer(s.(inFlight := s.inFlight - 1, fetches := s.fetches - {i}));
    if !s.failed && !s.aborted {
      forall k: nat | s.nextToEnqueue <= k < s.nextToSchedule
        ensures OnItsWay(u.buffers, u.fetches, k)
      {
        assert OnItsWay(s.buffers, s.fetches, k);
      }
    }
    PumpKeeps(job, windows, u);
    PumpKeepsUnsettled(job, windows, u);
    if k :| k in s.fetches && s.fetches[k].Rejected? {
      assert k in Pump(job, u).fetches;
    }
  }

  lemma StepStaysDoomed(job: Job, s: State, e: Event)
    requires Sound(job, s) && Step(job, s, e).Some?
    ensures Unsettled(Step(job, s, e).value)
    ensures Doomed(s) ==> Doomed(Step(job, s, e).value)
  {
    match e
    case Pulled => ConsumeStaysDoomed(job, s);
    case Resumed => ConsumeStaysDoomed(job, s);
    case Finished(i) => FinishStaysDoomed(job, s, i);
    case Arrived(i) => OtherFetchesStay(s, i, Settled);
    case Dropped(i) =>
    case Broke(i) => OtherFetchesStay(s, i, Rejected);
    case Caught(i) =>
    case Cancel =>
  }

  lemma OtherFetchesStay(s: State, i: nat, f: Fetch)
    requires i in s.fetches && s.fetches[i].Requesting?
    ensures SomeRejected(s.fetches) ==> SomeRejected(s.fetches[i := f])
  {
    if k :| k in s.fetches && s.fetches[k].Rejected? {
      assert k in s.fetches[i := f];
    }
  }

  lemma {:induction false} RunStaysDoomed(job: Job, s: State, events: seq<Event>)
    requires Sound(job, s) && Run(job, s, events).Some?
    ensures Sound(job, Run(job, s, events).value)
    ensures Doomed(s) ==> Doomed(Run(job, s, events).value)
    decreases |events|
  {
    if |events| > 0 {
      StepKeepsInv(job, s, events[0]);
      StepStaysDoomed(job, s, events[0]);
      RunStaysDoomed(job, Step(job, s, events[0]).value, events[1..]);
    }
  }

  lemma StartIsSound(job: Job)
    requires job.Valid() && |job.data| <= MAX_SAFE_INTEGER
    ensures Sound(job, Start(job))
  {
    var windows, s := Cut(job.data, job.windowSize),
      State(map[0 := job.data[..job.windowSize]], 0, 1, 0, map[], false, false, Idle, [], Open);
    CutCount(job.data, job.windowSize);
    StartIsGood(job);
    assert windows[0] == job.data[..job.windowSize];
    PumpKeepsUnsettled(job, windows, s);
  }

  ghost predicate CanClose(job: Job, s: State)
    requires job.windowSize > 0
  {
    exists events :: Run(job, s, events).Some? && Run(job, s, events).value.status.Closed?
  }

  /**
   * From a reachable state that is not closed some continuation closes the stream, and so delivers the
   * whole object, exactly when nothing has gone wrong: no failure, no cancel, no request that failed.
   */
  lemma ClosesUnlessSomethingFailed(job: Job, before: seq<Event>)
    requires job.Valid() && |job.data| <= MAX_SAFE_INTEGER && Run(job, Start(job), before).Some?
    requires !Run(job, Start(job), before).value.status.Closed?
    ensures CanClose(job, Run(job, Start(job), before).value) <==> Healthy(Run(job, Start(job), before).value)
  {
    StartIsSound(job);
    RunStaysDoomed(job, Start(job), before);
    var s := Run(job, Start(job), before).value;
    StatusIsKnown(job, before);
    if Healthy(s) {
      var events := SomeRunCloses(job, s);
    } else {
      forall events | Run(job, s, events).Some?
        ensures !Run(job, s, events).value.status.Closed?
      {
        RunStaysDoomed(job, s, events);
      }
    }
  }

  /** A stream that errored or was abandoned did so after a failure or a cancel. */
  lemma StatusIsKnown(job: Job, events: seq<Event>)
    requires job.Valid() && |job.data| <= MAX_SAFE_INTEGER && Run(job, Start(job), events).Some?
    ensures var s := Run(job, Start(job), events).value;
            s.status.Errored? || s.status.Abandoned? ==> s.failed || s.aborted
  {
    PumpKeepsStatus(job, State(map[0 := job.data[..job.windowSize]], 0, 1, 0, map[], false, false, Idle, [], Open));
    StatusKept(job, Start(job), events);
  }

  lemma {:induction false} StatusKept(job: Job, s: State, events: seq<Event>)
    requires job.windowSize > 0 && Run(job, s, events).Some?
    requires s.status.Errored? || s.status.Abandoned? ==> s.failed || s.aborted
    ensures var t := Run(job, s, events).value;
            t.status.Errored? || t.status.Abandoned? ==> t.failed || t.aborted
    decreases |events|
  {
    if |events| > 0 {
      StatusStep(job, s, events[0]);
      StatusKept(job, Step(job, s, events[0]).value, events[1..]);
    }
  }

  lemma {:induction false} PumpKeepsStatus(job: Job, s: State)
    ensures var t := Pump(job, s); t.status == s.status && t.failed == s.failed && t.aborted == s.aborted
    decreases job.windowCount - s.nextToSchedule
  {
    if !Saturated(job, s) {
      PumpKeepsStatus(job, Schedule(s));
    }
  }

  lemma StatusStep(job: Job, s: State, e: Event)
    requires job.windowSize > 0 && Step(job, s, e).Some?
    requires s.status.Errored? || s.status.Abandoned? ==> s.failed || s.aborted
    ensures var t := Step(job, s, e).value;
            t.status.Errored? || t.status.Abandoned? ==> t.failed || t.aborted
  {
    if (e.Pulled? || e.Resumed?) && s.nextToEnqueue in s.buffers {
      PumpKeepsStatus(job, Enqueue(s));
    }
    if e.Finished? {
      PumpKeepsStatus(job, SignalConsumer(s.(inFlight := s.inFlight - 1, fetches := s.fetches - {e.index})));
    }
  }
}
