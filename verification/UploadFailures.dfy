/** When the upload pool retries, when it falls back to the proxy, and when it gives up. */
module UploadFailures {
  import opened Bytes
  import opened UploadPool
  import opened UploadProgress

  /** Trouble that may pass: no answer, or a refusal with a status worth retrying. */
  predicate MayPass(reply: Reply) {
    reply.Unreachable? || reply == Refused(true)
  }

  /** What makes the pool fail: its source throws, or the proxy's last attempt, or a refusal for good, at one part. */
  predicate Fatal(job: Job, s: State, e: Event) {
    && e.w < |s.workers|
    && match e
       case Read(_) => false
       case Drawn(w) => s.workers[w].Reading? && s.taken >= |job.bodies| && job.sourceThrows
       case Replied(w, reply, _, _) =>
         s.workers[w].ProxySend? && !reply.Accepted? && (s.workers[w].attempt >= job.maxAttempts || !MayPass(reply))
  }

  lemma FailsExactlyOn(job: Job, s: State, e: Event)
    requires !s.firstError && Step(job, s, e).Some?
    ensures Step(job, s, e).value.firstError <==> Fatal(job, s, e)
    ensures Fatal(job, s, e) ==> Step(job, s, e).value.workers[e.w].Failed?
  {
  }

  /** Another attempt at the same request is still allowed. */
  predicate TriesAgain(job: Job, worker: Worker, reply: Reply) {
    && worker.Sending() && worker.attempt < job.maxAttempts
    && !reply.Accepted? && (worker.DirectAck? || MayPass(reply))
  }

  /**
   * While the pool has no error, trouble that may pass is met by one more attempt of the same kind at
   * the same part; an acknowledgement is repeated whatever went wrong with it.
   */
  lemma TroubleIsRetried(job: Job, s: State, w: nat, reply: Reply, stores: bool, records: bool)
    requires !s.firstError && Step(job, s, Replied(w, reply, stores, records)).Some?
    requires TriesAgain(job, s.workers[w], reply)
    ensures var before, t := s.workers[w], Step(job, s, Replied(w, reply, stores, records)).value;
            && !t.firstError && t.directUnavailable == s.directUnavailable && t.reported == s.reported
            && t.workers[w] == match before
                               case ProxySend(part, attempt) => ProxySend(part, attempt + 1)
                               case DirectPut(part, attempt) => DirectPut(part, attempt + 1)
                               case DirectAck(part, attempt) => DirectAck(part, attempt + 1)
                               case _ => before
  {
  }

  /** Direct sending that tries no more hands the part to the proxy, from its first attempt, and tells all workers. */
  lemma DirectTroubleFallsBack(job: Job, s: State, w: nat, reply: Reply, stores: bool, records: bool)
    requires !s.firstError && Step(job, s, Replied(w, reply, stores, records)).Some?
    requires s.workers[w].DirectPut? || s.workers[w].DirectAck?
    ensures var before, t := s.workers[w], Step(job, s, Replied(w, reply, stores, records)).value;
            (t.directUnavailable && t.workers[w] == ProxySend(before.part, 1))
            || (t.directUnavailable == s.directUnavailable && !t.workers[w].ProxySend?)
    ensures var t := Step(job, s, Replied(w, reply, stores, records)).value;
            t.workers[w].ProxySend? <==> !reply.Accepted? && !TriesAgain(job, s.workers[w], reply)
  {
  }

  /** An accepted direct put goes on to its acknowledgement; an accepted last request reports the part. */
  lemma AcceptedGoesOn(job: Job, s: State, w: nat, stores: bool, records: bool)
    requires !s.firstError && Step(job, s, Replied(w, Accepted, stores, records)).Some?
    ensures var before, t := s.workers[w], Step(job, s, Replied(w, Accepted, stores, records)).value;
            && !t.firstError
            && (before.DirectPut? ==> t.workers[w] == DirectAck(before.part, 1) && t.reported == s.reported)
            && (!before.DirectPut? ==> t.workers[w] == Ready && t.reported == s.reported + [before.part])
  {
  }

  /** Once the pool has failed nobody starts a request or reports a part any more; answers still come in. */
  lemma FailureStopsEverybody(job: Job, s: State, e: Event)
    requires s.firstError && Step(job, s, e).Some?
    ensures var t := Step(job, s, e).value;
            && t.firstError && t.reported == s.reported && t.directUnavailable == s.directUnavailable
            && !t.workers[e.w].Sending() && !t.workers[e.w].Reading?
            && forall w :: 0 <= w < |s.workers| && w != e.w ==> t.workers[w] == s.workers[w]
  {
    assert |Step(job, s, e).value.workers| == |s.workers|;
  }

  // ---- Which way a part goes ----

  predicate UsesProxy(job: Job, s: State) {
    job.mode.Proxy? || s.directUnavailable
  }

  /** A drawn part goes directly exactly while direct sending is wanted and nothing has fallen back. */
  lemma PartsAreSentAsWanted(job: Job, s: State, w: nat)
    requires Step(job, s, Drawn(w)).Some? && !s.firstError && s.taken < |job.bodies|
    ensures var t := Step(job, s, Drawn(w)).value;
            t.workers[w] == if UsesProxy(job, s) then ProxySend(s.taken + 1, 1) else DirectPut(s.taken + 1, 1)
  {
  }

  lemma {:induction false} FallbackStays(job: Job, s: State, events: seq<Event>)
    requires UsesProxy(job, s) && Run(job, s, events).Some?
    ensures UsesProxy(job, Run(job, s, events).value)
    decreases |events|
  {
    if |events| > 0 {
      FallbackStays(job, Step(job, s, events[0]).value, events[1..]);
    }
  }

  /** Once a part has fallen back, every part drawn in any later state goes through the proxy. */
  lemma LaterPartsUseTheProxy(job: Job, s: State, events: seq<Event>, w: nat)
    requires s.directUnavailable && Run(job, s, events).Some?
    requires var u := Run(job, s, events).value;
             !u.firstError && u.taken < |job.bodies| && Step(job, u, Drawn(w)).Some?
    ensures var u := Run(job, s, events).value;
            Step(job, u, Drawn(w)).value.workers[w] == ProxySend(u.taken + 1, 1)
  {
    FallbackStays(job, s, events);
    PartsAreSentAsWanted(job, Run(job, s, events).value, w);
  }

  // ---- Over whole runs ----

  /** The part has been sent through the proxy this often without success, and its worker is at the next attempt. */
  predicate Tried(s: State, part: nat, n: nat) {
    n == 0 || exists w :: 0 <= w < |s.workers| && s.workers[w].ProxySend? && s.workers[w].part == part
                          && s.workers[w].attempt > n
  }

  predicate ProxyAnswers(s: State, e: Event, part: nat) {
    e.Replied? && e.w < |s.workers| && s.workers[e.w].ProxySend? && s.workers[e.w].part == part
  }

  /** Answers of the proxy, or failures to get one, for a part along a run. */
  function ProxySends(job: Job, s: State, events: seq<Event>, part: nat): nat
    decreases |events|
  {
    if |events| == 0 || Step(job, s, events[0]).None? then 0
    else (if ProxyAnswers(s, events[0], part) then 1 else 0)
         + ProxySends(job, Step(job, s, events[0]).value, events[1..], part)
  }

  /** Along the run the proxy refused the part for good. */
  predicate RefusedForGood(job: Job, s: State, events: seq<Event>, part: nat)
    decreases |events|
  {
    |events| > 0 && Step(job, s, events[0]).Some?
    && ((ProxyAnswers(s, events[0], part) && !events[0].reply.Accepted? && !MayPass(events[0].reply))
        || RefusedForGood(job, Step(job, s, events[0]).value, events[1..], part))
  }

  predicate GaveUpOn(job: Job, s: State, events: seq<Event>, part: nat, n: nat) {
    || RefusedForGood(job, s, events, part)
    || (Tried(s, part, n) && n + ProxySends(job, s, events, part) >= Attempts(job))
  }

  /** A worker at a later attempt through the proxy has just had the one before answered. */
  lemma LaterAttempt(job: Job, s: State, e: Event, t: State)
    requires !s.firstError && e.w < |s.workers| == |t.workers| && Step(job, s, e) == Some(t)
    requires t.workers[e.w].ProxySend? && t.workers[e.w].attempt > 1
    ensures var after := t.workers[e.w];
            s.workers[e.w] == ProxySend(after.part, after.attempt - 1) && ProxyAnswers(s, e, after.part)
  {
    if e.Replied? {
      var before, u := s.workers[e.w], Serve(job, s, s.workers[e.w].part, e.stores, e.records);
      match before
      case ProxySend(part, attempt) => AnotherProxySend(job, u, e.w, part, attempt, e.reply);
      case DirectPut(part, attempt) => PutFallsToFirst(job, u, e.w, part, attempt, e.reply);
      case DirectAck(part, attempt) => AckFallsToFirst(job, u, e.w, part, attempt, e.reply);
    }
  }

  lemma AnotherProxySend(job: Job, u: State, w: nat, part: nat, attempt: nat, reply: Reply)
    requires w < |u.workers|
    ensures var after := AfterProxy(job, u, w, part, attempt, reply).workers[w];
            after.ProxySend? ==> after == ProxySend(part, attempt + 1)
  {
  }

  lemma PutFallsToFirst(job: Job, u: State, w: nat, part: nat, attempt: nat, reply: Reply)
    requires w < |u.workers|
    ensures var after := AfterPut(job, u, w, part, attempt, reply).workers[w];
            after.ProxySend? ==> after.attempt == 1
  {
  }

  lemma AckFallsToFirst(job: Job, u: State, w: nat, part: nat, attempt: nat, reply: Reply)
    requires w < |u.workers|
    ensures var after := AfterAck(job, u, w, part, attempt, reply).workers[w];
            after.ProxySend? ==> after.attempt == 1
  {
  }

  lemma TriedBefore(job: Job, s: State, e: Event, part: nat, n: nat) returns (m: nat)
    requires !s.firstError && Step(job, s, e).Some? && !Step(job, s, e).value.firstError
    requires Tried(Step(job, s, e).value, part, n)
    ensures Tried(s, part, m) && m + (if ProxyAnswers(s, e, part) then 1 else 0) >= n
  {
    var t := Step(job, s, e).value;
    StepMoved(job, s, e);
    if n == 0 {
      m := 0;
    } else {
      var w :| 0 <= w < |t.workers| && t.workers[w].ProxySend? && t.workers[w].part == part && t.workers[w].attempt > n;
      if w == e.w {
        m := n - 1;
        LaterAttempt(job, s, e, t);
        assert s.workers[w].ProxySend? && s.workers[w].part == part && s.workers[w].attempt > m;
      } else {
        m := n;
        assert s.workers[w] == t.workers[w];
      }
    }
  }

  lemma FatalPart(job: Job, s: State, e: Event, rest: seq<Event>) returns (part: nat, n: nat)
    requires !s.firstError && Step(job, s, e).Some? && Fatal(job, s, e) && !job.sourceThrows
    requires AttemptsInv(job, s)
    ensures GaveUpOn(job, s, [e] + rest, part, n)
  {
    var worker := s.workers[e.w];
    assert AttemptInv(job, worker);
    part, n := worker.part, worker.attempt - 1;
    assert ([e] + rest)[1..] == rest;
    if MayPass(e.reply) {
      assert Tried(s, part, n);
    }
  }

  lemma {:induction false} FailedRunGaveUp(job: Job, s: State, events: seq<Event>) returns (part: nat, n: nat)
    requires AttemptsInv(job, s) && !s.firstError && !job.sourceThrows
    requires Run(job, s, events).Some? && Run(job, s, events).value.firstError
    ensures GaveUpOn(job, s, events, part, n)
    decreases |events|
  {
    var e, rest := events[0], events[1..];
    var t := Step(job, s, e).value;
    assert events == [e] + rest;
    FailsExactlyOn(job, s, e);
    if Fatal(job, s, e) {
      part, n := FatalPart(job, s, e, rest);
    } else {
      StepKeepsAttempts(job, s, e);
      var later;
      part, later := FailedRunGaveUp(job, t, rest);
      n := 0;
      if !RefusedForGood(job, t, rest, part) {
        n := TriedBefore(job, s, e, part, later);
      }
    }
  }

  /** Along the run the proxy refused the part for good, or was asked to take it as often as allowed. */
  predicate GivenUp(job: Job, s: State, events: seq<Event>, part: nat) {
    RefusedForGood(job, s, events, part) || ProxySends(job, s, events, part) >= Attempts(job)
  }

  /**
   * A pool fails only for cause, over all runs: its source throws, or the proxy refused some part for
   * good, or some part was sent through the proxy the full number of times.
   */
  lemma PoolFailsOnlyForCause(job: Job, concurrency: nat, events: seq<Event>)
    requires Run(job, Start(concurrency), events).Some? && Run(job, Start(concurrency), events).value.firstError
    ensures job.sourceThrows || exists part :: GivenUp(job, Start(concurrency), events, part)
  {
    if !job.sourceThrows {
      var part, n := FailedRunGaveUp(job, Start(concurrency), events);
      assert Tried(Start(concurrency), part, n) ==> n == 0;
      assert GivenUp(job, Start(concurrency), events, part);
    }
  }
}
