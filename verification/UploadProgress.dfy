/** How long the upload pool can go on: a bound for every part and every run, and a way to the end from every state. */
module UploadProgress {
  import opened Bytes
  import opened UploadPool

  /** Attempts of one kind at one part: at least one is always made. */
  function Attempts(job: Job): nat {
    Max(1, job.maxAttempts)
  }

  predicate AttemptInv(job: Job, worker: Worker) {
    worker.Sending() ==> 1 <= worker.attempt <= Attempts(job)
  }

  predicate AttemptsInv(job: Job, s: State) {
    forall w :: 0 <= w < |s.workers| ==> AttemptInv(job, s.workers[w])
  }

  /** Sends a worker may still make for its part: direct puts, then acknowledgements, then through the proxy. */
  function SendsLeft(m: nat, worker: Worker): nat {
    match worker
    case ProxySend(_, attempt) => Left(m, attempt)
    case DirectAck(_, attempt) => Left(m, attempt) + m
    case DirectPut(_, attempt) => Left(m, attempt) + 2 * m
    case _ => 0
  }

  function Left(m: nat, attempt: nat): nat {
    if attempt <= m then m - attempt + 1 else 0
  }

  function Total(f: Worker -> nat, workers: seq<Worker>): nat {
    if |workers| == 0 then 0 else f(workers[0]) + Total(f, workers[1..])
  }

  lemma {:induction false} TotalUpdate(f: Worker -> nat, workers: seq<Worker>, w: nat, x: Worker)
    requires w < |workers|
    ensures Total(f, workers[w := x]) + f(workers[w]) == Total(f, workers) + f(x)
  {
    if w == 0 {
      assert workers[0 := x][1..] == workers[1..];
    } else {
      assert workers[w := x][1..] == workers[1..][w - 1 := x];
      TotalUpdate(f, workers[1..], w - 1, x);
    }
  }

  lemma {:induction false} TotalOfEqual(f: Worker -> nat, n: nat, x: Worker)
    ensures Total(f, seq(n, _ => x)) == n * f(x)
  {
    if n > 0 {
      assert seq(n, _ => x)[1..] == seq(n - 1, _ => x);
      TotalOfEqual(f, n - 1, x);
      assert n * f(x) == (n - 1) * f(x) + f(x);
    }
  }

  // ---- What an event does to its worker ----

  /** How a worker may go on, and whether it drew the next part. */
  predicate Next(m: nat, before: Worker, after: Worker, taken: nat, drew: bool) {
    match before
    case Ready => !drew && (after.Exited? || after.Reading?)
    case Reading =>
      after.Exited? || (!drew && after.Failed?)
      || (drew && (after == ProxySend(taken + 1, 1) || after == DirectPut(taken + 1, 1)))
    case ProxySend(part, attempt) =>
      !drew && (after.Failed? || after.Ready? || (attempt < m && after == ProxySend(part, attempt + 1)))
    case DirectPut(part, attempt) =>
      !drew && (after.Ready? || after == ProxySend(part, 1) || after == DirectAck(part, 1)
                || (attempt < m && after == DirectPut(part, attempt + 1)))
    case DirectAck(part, attempt) =>
      !drew && (after.Ready? || after == ProxySend(part, 1) || (attempt < m && after == DirectAck(part, attempt + 1)))
    case _ => false
  }

  /** One worker moves; the others stay as they are. */
  predicate Moved(job: Job, s: State, t: State, w: nat) {
    && w < |s.workers| == |t.workers|
    && t.workers == s.workers[w := t.workers[w]]
    && s.taken <= t.taken <= s.taken + 1
    && (t.taken > s.taken ==> t.taken <= |job.bodies|)
    && Next(Attempts(job), s.workers[w], t.workers[w], s.taken, t.taken > s.taken)
  }

  lemma ProxyMoved(job: Job, s: State, w: nat, part: nat, attempt: nat, reply: Reply)
    requires w < |s.workers| && s.workers[w] == ProxySend(part, attempt)
    ensures Moved(job, s, AfterProxy(job, s, w, part, attempt, reply), w)
  {
  }

  lemma PutMoved(job: Job, s: State, w: nat, part: nat, attempt: nat, reply: Reply)
    requires w < |s.workers| && s.workers[w] == DirectPut(part, attempt)
    ensures Moved(job, s, AfterPut(job, s, w, part, attempt, reply), w)
  {
  }

  lemma AckMoved(job: Job, s: State, w: nat, part: nat, attempt: nat, reply: Reply)
    requires w < |s.workers| && s.workers[w] == DirectAck(part, attempt)
    ensures Moved(job, s, AfterAck(job, s, w, part, attempt, reply), w)
  {
  }

  lemma DrawnMoved(job: Job, s: State, w: nat)
    requires Step(job, s, Drawn(w)).Some?
    ensures Moved(job, s, Step(job, s, Drawn(w)).value, w)
  {
  }

  lemma RepliedMoved(job: Job, s: State, w: nat, reply: Reply, stores: bool, records: bool)
    requires Step(job, s, Replied(w, reply, stores, records)).Some?
    ensures Moved(job, s, Step(job, s, Replied(w, reply, stores, records)).value, w)
  {
    var served := Serve(job, s, s.workers[w].part, stores, records);
    match s.workers[w]
    case ProxySend(part, attempt) => ProxyMoved(job, served, w, part, attempt, reply);
    case DirectPut(part, attempt) => PutMoved(job, served, w, part, attempt, reply);
    case DirectAck(part, attempt) => AckMoved(job, served, w, part, attempt, reply);
  }

  lemma StepMoved(job: Job, s: State, e: Event)
    requires Step(job, s, e).Some?
    ensures Moved(job, s, Step(job, s, e).value, e.w)
  {
    match e
    case Read(_) =>
    case Drawn(w) => DrawnMoved(job, s, w);
    case Replied(w, reply, stores, records) => RepliedMoved(job, s, w, reply, stores, records);
  }

  lemma MoveKeepsAttempts(job: Job, s: State, t: State, w: nat)
    requires AttemptsInv(job, s) && Moved(job, s, t, w)
    ensures AttemptsInv(job, t)
  {
    assert AttemptInv(job, s.workers[w]);
    assert forall v :: 0 <= v < |s.workers| && v != w ==> t.workers[v] == s.workers[v];
  }

  lemma StepKeepsAttempts(job: Job, s: State, e: Event)
    requires AttemptsInv(job, s) && Step(job, s, e).Some?
    ensures AttemptsInv(job, Step(job, s, e).value)
  {
    StepMoved(job, s, e);
    MoveKeepsAttempts(job, s, Step(job, s, e).value, e.w);
  }

  // ---- The attempts at one part ----

  function PartLeft(m: nat, part: nat): Worker -> nat {
    (worker: Worker) => if worker.Holds(part) then SendsLeft(m, worker) else 0
  }

  /** Sends that can still be made for a part: none yet drawn, so all of them, or what its worker has left. */
  function Budget(job: Job, s: State, part: nat): nat {
    var m := Attempts(job);
    Total(PartLeft(m, part), s.workers) + if part > s.taken then 3 * m else 0
  }

  function Sends(s: State, e: Event, part: nat): nat {
    if e.Replied? && e.w < |s.workers| && s.workers[e.w].Holds(part) then 1 else 0
  }

  /** Requests made for a part along a run. */
  function SendsOf(job: Job, s: State, events: seq<Event>, part: nat): nat
    decreases |events|
  {
    if |events| == 0 || Step(job, s, events[0]).None? then 0
    else Sends(s, events[0], part) + SendsOf(job, Step(job, s, events[0]).value, events[1..], part)
  }

  lemma NextSpends(m: nat, before: Worker, after: Worker, taken: nat, drew: bool, part: nat)
    requires Next(m, before, after, taken, drew) && (before.Sending() ==> 1 <= before.attempt <= m)
    ensures PartLeft(m, part)(after) + (if before.Holds(part) then 1 else 0)
         <= PartLeft(m, part)(before) + if drew && part == taken + 1 then 3 * m else 0
  {
  }

  lemma StepSpends(job: Job, s: State, e: Event, part: nat)
    requires AttemptsInv(job, s) && Step(job, s, e).Some?
    ensures Budget(job, Step(job, s, e).value, part) + Sends(s, e, part) <= Budget(job, s, part)
  {
    var t, m := Step(job, s, e).value, Attempts(job);
    StepMoved(job, s, e);
    MoveSpends(job, s, t, e.w, part);
  }

  lemma MoveSpends(job: Job, s: State, t: State, w: nat, part: nat)
    requires AttemptsInv(job, s) && Moved(job, s, t, w)
    ensures Budget(job, t, part) + (if s.workers[w].Holds(part) then 1 else 0) <= Budget(job, s, part)
  {
    var m := Attempts(job);
    assert AttemptInv(job, s.workers[w]);
    NextSpends(m, s.workers[w], t.workers[w], s.taken, t.taken > s.taken, part);
    TotalUpdate(PartLeft(m, part), s.workers, w, t.workers[w]);
  }

  lemma {:induction false} RunSpends(job: Job, s: State, events: seq<Event>, part: nat)
    requires AttemptsInv(job, s) && Run(job, s, events).Some?
    ensures SendsOf(job, s, events, part) <= Budget(job, s, part)
    decreases |events|
  {
    if |events| > 0 {
      StepKeepsAttempts(job, s, events[0]);
      StepSpends(job, s, events[0], part);
      RunSpends(job, Step(job, s, events[0]).value, events[1..], part);
    }
  }

  /**
   * Along every run each part is sent at most three times the configured number of attempts: direct puts,
   * acknowledgements, and through the proxy.
   */
  lemma AttemptsAreBounded(job: Job, concurrency: nat, events: seq<Event>, part: nat)
    requires Run(job, Start(concurrency), events).Some?
    ensures SendsOf(job, Start(concurrency), events, part) <= 3 * Attempts(job)
  {
    RunSpends(job, Start(concurrency), events, part);
    TotalOfEqual(PartLeft(Attempts(job), part), concurrency, Ready);
  }

  // ---- The length of a run ----

  function Weight(m: nat): Worker -> nat {
    (worker: Worker) =>
      match worker
      case Ready => 2
      case Reading => 1
      case Exited => 0
      case Failed => 0
      case _ => SendsLeft(m, worker) + 2
  }

  function PartCost(m: nat): nat {
    3 * m + 3
  }

  /** `n * cost`, by repeated addition. */
  function Times(n: nat, cost: nat): nat {
    if n == 0 then 0 else Times(n - 1, cost) + cost
  }

  lemma {:induction false} TimesIs(n: nat, cost: nat)
    ensures Times(n, cost) == n * cost
  {
    if n > 0 {
      TimesIs(n - 1, cost);
      assert n * cost == (n - 1) * cost + cost;
    }
  }

  /** An upper bound of the events to come. */
  function Remaining(job: Job, s: State): nat {
    Times(if s.taken <= |job.bodies| then |job.bodies| - s.taken else 0, PartCost(Attempts(job)))
    + Total(Weight(Attempts(job)), s.workers)
  }

  lemma NextAdvances(m: nat, before: Worker, after: Worker, taken: nat, drew: bool)
    requires Next(m, before, after, taken, drew) && (before.Sending() ==> 1 <= before.attempt <= m)
    ensures Weight(m)(after) < Weight(m)(before) + if drew then PartCost(m) else 0
  {
  }

  lemma MoveAdvances(job: Job, s: State, t: State, w: nat)
    requires AttemptsInv(job, s) && s.taken <= |job.bodies| && Moved(job, s, t, w)
    ensures t.taken <= |job.bodies| && Remaining(job, t) < Remaining(job, s)
  {
    var m := Attempts(job);
    assert AttemptInv(job, s.workers[w]);
    NextAdvances(m, s.workers[w], t.workers[w], s.taken, t.taken > s.taken);
    TotalUpdate(Weight(m), s.workers, w, t.workers[w]);
  }

  lemma StepAdvances(job: Job, s: State, e: Event)
    requires AttemptsInv(job, s) && s.taken <= |job.bodies| && Step(job, s, e).Some?
    ensures Step(job, s, e).value.taken <= |job.bodies|
    ensures Remaining(job, Step(job, s, e).value) < Remaining(job, s)
  {
    StepMoved(job, s, e);
    MoveAdvances(job, s, Step(job, s, e).value, e.w);
  }

  lemma {:induction false} RunAdvances(job: Job, s: State, events: seq<Event>)
    requires AttemptsInv(job, s) && s.taken <= |job.bodies| && Run(job, s, events).Some?
    ensures |events| + Remaining(job, Run(job, s, events).value) <= Remaining(job, s)
    decreases |events|
  {
    if |events| > 0 {
      StepKeepsAttempts(job, s, events[0]);
      StepAdvances(job, s, events[0]);
      RunAdvances(job, Step(job, s, events[0]).value, events[1..]);
    }
  }

  lemma RemainingAtStart(job: Job, concurrency: nat)
    ensures Remaining(job, Start(concurrency)) == |job.bodies| * (3 * Attempts(job) + 3) + 2 * concurrency
  {
    TotalOfEqual(Weight(Attempts(job)), concurrency, Ready);
    TimesIs(|job.bodies|, PartCost(Attempts(job)));
  }

  /** No run goes on for ever: its length is bounded by the parts, the attempts and the workers. */
  lemma {:induction false} RunsAreBounded(job: Job, concurrency: nat, events: seq<Event>)
    requires Run(job, Start(concurrency), events).Some?
    ensures |events| <= |job.bodies| * (3 * Attempts(job) + 3) + 2 * concurrency
  {
    RunAdvances(job, Start(concurrency), events);
    RemainingAtStart(job, concurrency);
  }

  // ---- A way to a normal return ----

  predicate GoingWell(job: Job, s: State) {
    AttemptsInv(job, s) && !s.firstError && !job.sourceThrows
  }

  /** The next event of a worker when everything goes well. */
  function LuckyEvent(s: State, w: nat): Event
    requires w < |s.workers|
  {
    var worker := s.workers[w];
    if worker.Ready? then Read(w)
    else if worker.Reading? then Drawn(w)
    else Replied(w, Accepted, !worker.DirectAck?, !worker.DirectPut?)
  }

  lemma LuckyStep(job: Job, s: State, w: nat)
    requires UploadPool.Inv(job, s) && GoingWell(job, s) && w < |s.workers| && !s.workers[w].Exited?
    ensures Step(job, s, LuckyEvent(s, w)).Some? && !Step(job, s, LuckyEvent(s, w)).value.firstError
  {
  }

  /**
   * From every reachable state without an error, whatever happened before, some continuation returns
   * normally, and so completes the upload.
   */
  lemma {:induction false} SomeRunReturns(job: Job, s: State) returns (events: seq<Event>)
    requires UploadPool.Inv(job, s) && GoingWell(job, s)
    ensures Run(job, s, events).Some? && ReturnsNormally(Run(job, s, events).value)
    decreases Remaining(job, s)
  {
    if w: nat :| w < |s.workers| && !s.workers[w].Exited? {
      var e := LuckyEvent(s, w);
      LuckyStep(job, s, w);
      StepKeepsInv(job, s, e);
      StepKeepsAttempts(job, s, e);
      StepAdvances(job, s, e);
      var rest := SomeRunReturns(job, Step(job, s, e).value);
      events := [e] + rest;
      assert events[1..] == rest;
    } else {
      events := [];
    }
  }

  lemma {:induction false} RunKeepsAttempts(job: Job, s: State, events: seq<Event>)
    requires AttemptsInv(job, s) && Run(job, s, events).Some?
    ensures AttemptsInv(job, Run(job, s, events).value)
    decreases |events|
  {
    if |events| > 0 {
      StepKeepsAttempts(job, s, events[0]);
      RunKeepsAttempts(job, Step(job, s, events[0]).value, events[1..]);
    }
  }

  lemma ErrorFreeRunsCanReturn(job: Job, concurrency: nat, before: seq<Event>) returns (after: seq<Event>)
    requires Run(job, Start(concurrency), before).Some? && !Run(job, Start(concurrency), before).value.firstError
    requires !job.sourceThrows
    ensures var s := Run(job, Start(concurrency), before).value;
            Run(job, s, after).Some? && ReturnsNormally(Run(job, s, after).value)
  {
    RunKeepsInv(job, Start(concurrency), before);
    RunKeepsAttempts(job, Start(concurrency), before);
    after := SomeRunReturns(job, Run(job, Start(concurrency), before).value);
  }
}
