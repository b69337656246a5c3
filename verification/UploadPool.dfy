/**
 * The worker pool that sends multipart parts: several workers draw parts from one serialised
 * iteration, retry, fall back from direct to proxied sending, and stop each other on failure.
 * Workers interleave at their awaits; each event below is the code between two awaits of one worker.
 */
module UploadPool {
  import opened Bytes

  datatype Mode = Direct | Proxy

  /** Where a worker is suspended; parts are numbered from one. */
  datatype Worker =
    | Ready
    | Reading
    | ProxySend(part: nat, attempt: nat)
    | DirectPut(part: nat, attempt: nat)
    | DirectAck(part: nat, attempt: nat)
    | Exited
    | Failed
  {
    predicate Holds(p: nat) {
      (ProxySend? || DirectPut? || DirectAck?) && part == p
    }

    predicate Sending() {
      ProxySend? || DirectPut? || DirectAck?
    }
  }

  /** What one pool is given: the parts its iteration yields, and whether the iteration then throws. */
  datatype Job = Job(bodies: seq<Bytes>, sourceThrows: bool, mode: Mode, maxAttempts: int)

  datatype State = State(
    workers: seq<Worker>,
    taken: nat,                 // parts drawn from the iteration so far
    directUnavailable: bool,
    firstError: bool,
    reported: seq<nat>,         // part numbers passed to onBytesUploaded, in order
    stored: map<nat, Bytes>,    // part contents held by the multipart upload
    recorded: map<nat, Bytes>   // the upload_parts rows, each naming a stored content
  )

  datatype Reply = Unreachable | Refused(retryable: bool) | NoEtag | Accepted

  /** `stores` and `records` say what the server did, whatever reply the worker sees. */
  datatype Event =
    | Read(w: nat)
    | Drawn(w: nat)
    | Replied(w: nat, reply: Reply, stores: bool, records: bool)

  function Start(concurrency: nat): State {
    State(seq(concurrency, _ => Ready), 0, false, false, [], map[], map[])
  }

  function Put(s: State, w: nat, worker: Worker): State
    requires w < |s.workers|
  {
    s.(workers := s.workers[w := worker])
  }

  /** A worker's error stops the whole pool. */
  function Fail(s: State, w: nat): State
    requires w < |s.workers|
  {
    Put(s.(firstError := true), w, Failed)
  }

  function Report(s: State, w: nat, part: nat): State
    requires w < |s.workers|
  {
    Put(s.(reported := s.reported + [part]), w, Ready)
  }

  function Begin(job: Job, s: State, w: nat, part: nat): State
    requires w < |s.workers|
  {
    Put(s, w, if job.mode.Proxy? || s.directUnavailable then ProxySend(part, 1) else DirectPut(part, 1))
  }

  /** Direct sending gave up on a part: every later part goes through the proxy too. */
  function FallBack(s: State, w: nat, part: nat): State
    requires w < |s.workers|
  {
    if s.firstError then Put(s, w, Ready)
    else Put(s.(directUnavailable := true), w, ProxySend(part, 1))
  }

  function AfterProxy(job: Job, s: State, w: nat, part: nat, attempt: nat, reply: Reply): State
    requires w < |s.workers|
  {
    if reply.Unreachable? then
      if attempt >= job.maxAttempts || s.firstError then Fail(s, w) else Put(s, w, ProxySend(part, attempt + 1))
    else if s.firstError then Put(s, w, Ready)
    else if reply.Accepted? then Report(s, w, part)
    else if !(reply.Refused? && reply.retryable) || attempt >= job.maxAttempts then Fail(s, w)
    else Put(s, w, ProxySend(part, attempt + 1))
  }

  function AfterPut(job: Job, s: State, w: nat, part: nat, attempt: nat, reply: Reply): State
    requires w < |s.workers|
  {
    if reply.Unreachable? then
      if attempt >= job.maxAttempts || s.firstError then FallBack(s, w, part)
      else Put(s, w, DirectPut(part, attempt + 1))
    else if s.firstError then Put(s, w, Ready)
    else if reply.Accepted? then Put(s, w, DirectAck(part, 1))
    else if !(reply.Refused? && reply.retryable) || attempt >= job.maxAttempts then FallBack(s, w, part)
    else Put(s, w, DirectPut(part, attempt + 1))
  }

  function AfterAck(job: Job, s: State, w: nat, part: nat, attempt: nat, reply: Reply): State
    requires w < |s.workers|
  {
    if reply.Accepted? then
      if s.firstError then Put(s, w, Ready) else Report(s, w, part)
    else if attempt >= job.maxAttempts || s.firstError then FallBack(s, w, part)
    else Put(s, w, DirectAck(part, attempt + 1))
  }

  /** The server's side: a part number always carries the same bytes, so writes for it are repeatable. */
  function Serve(job: Job, s: State, part: nat, stores: bool, records: bool): State
    requires 1 <= part <= |job.bodies|
  {
    var body := job.bodies[part - 1];
    s.(stored := if stores then s.stored[part := body] else s.stored,
       recorded := if records then s.recorded[part := body] else s.recorded)
  }

  /**
   * What a server may do behind each kind of reply. Only an accepting reply is a promise: the proxy
   * stores and then records, a direct put stores, an acknowledgement records.
   */
  predicate Plausible(s: State, worker: Worker, reply: Reply, stores: bool, records: bool) {
    match worker
    case ProxySend(_, _) => !reply.NoEtag? && (records ==> stores) && (reply.Accepted? ==> stores && records)
    case DirectPut(_, _) => !records && (reply.Accepted? || reply.NoEtag? ==> stores)
    case DirectAck(part, _) => !reply.NoEtag? && !stores && (reply.Accepted? ==> records)
    case _ => false
  }

  function Step(job: Job, s: State, e: Event): Option<State> {
    if e.w >= |s.workers| then None
    else
      var worker := s.workers[e.w];
      match e
      case Read(w) =>
        if worker.Ready? then Some(Put(s, w, if s.firstError then Exited else Reading)) else None
      case Drawn(w) =>
        if !worker.Reading? then None
        else if s.taken < |job.bodies| then
          var s' := s.(taken := s.taken + 1);
          Some(if s.firstError then Put(s', w, Exited) else Begin(job, s', w, s.taken + 1))
        else Some(if job.sourceThrows then Fail(s, w) else Put(s, w, Exited))
      case Replied(w, reply, stores, records) =>
        if worker.Sending() && 1 <= worker.part <= |job.bodies| && Plausible(s, worker, reply, stores, records) then
          var s' := Serve(job, s, worker.part, stores, records);
          match worker
          case ProxySend(part, attempt) => Some(AfterProxy(job, s', w, part, attempt, reply))
          case DirectPut(part, attempt) => Some(AfterPut(job, s', w, part, attempt, reply))
          case DirectAck(part, attempt) => Some(AfterAck(job, s', w, part, attempt, reply))
        else None
  }

  function Run(job: Job, s: State, events: seq<Event>): Option<State>
    decreases |events|
  {
    if |events| == 0 then Some(s)
    else
      match Step(job, s, events[0])
      case None => None
      case Some(s') => Run(job, s', events[1..])
  }

  /** The pool returns normally when every worker has returned and none failed. */
  predicate ReturnsNormally(s: State) {
    !s.firstError && forall w :: 0 <= w < |s.workers| ==> s.workers[w].Exited?
  }

  // ---- What every step keeps ----

  ghost predicate Held(s: State, p: nat) {
    exists w :: 0 <= w < |s.workers| && s.workers[w].Holds(p)
  }

  ghost predicate NoDuplicates(s: State) {
    && (forall i, j :: 0 <= i < j < |s.reported| ==> s.reported[i] != s.reported[j])
    && (forall w, w' :: 0 <= w < w' < |s.workers| && s.workers[w].Sending() ==> !s.workers[w'].Holds(s.workers[w].part))
    && (forall w :: 0 <= w < |s.workers| && s.workers[w].Sending() ==> s.workers[w].part !in s.reported)
  }

  ghost predicate InRange(job: Job, s: State) {
    && s.taken <= |job.bodies|
    && (forall w :: 0 <= w < |s.workers| && s.workers[w].Sending() ==> 1 <= s.workers[w].part <= s.taken)
    && (forall p :: p in s.reported ==> 1 <= p <= s.taken)
  }

  ghost predicate ServerAgrees(job: Job, s: State) {
    && s.taken <= |job.bodies|
    && (forall p :: p in s.stored ==> 1 <= p <= s.taken && s.stored[p] == job.bodies[p - 1])
    && (forall p :: p in s.recorded ==> p in s.stored && s.recorded[p] == s.stored[p])
    && (forall p :: p in s.reported ==> p in s.recorded)
    && (forall w :: 0 <= w < |s.workers| && s.workers[w].DirectAck? ==> s.workers[w].part in s.stored)
  }

  ghost predicate Inv(job: Job, s: State) {
    && InRange(job, s) && NoDuplicates(s) && ServerAgrees(job, s)
    && (!s.firstError ==>
          && (forall p: nat :: 1 <= p <= s.taken ==> p in s.reported || Held(s, p))
          && (forall w :: 0 <= w < |s.workers| ==> !s.workers[w].Failed?)
          && ((exists w :: 0 <= w < |s.workers| && s.workers[w].Exited?) ==>
                s.taken == |job.bodies| && !job.sourceThrows))
  }

  // Every step is one of three moves of one worker, besides what the server does.

  /** The worker goes on with the same part, or lets go of it because the pool is stopping. */
  ghost predicate Keeps(job: Job, s: State, s': State, w: nat)
    requires w < |s.workers| == |s'.workers|
  {
    && s'.taken == s.taken && s'.reported == s.reported
    && (s'.workers[w].Sending() ==> s.workers[w].Holds(s'.workers[w].part))
    && (!s'.firstError && s.workers[w].Sending() ==> s'.workers[w].Holds(s.workers[w].part))
    && (s'.workers[w].Exited? && !s'.firstError ==> s.taken == |job.bodies| && !job.sourceThrows)
  }

  /** The worker draws the next part from the iteration. */
  ghost predicate Draws(job: Job, s: State, s': State, w: nat)
    requires w < |s.workers| == |s'.workers|
  {
    && s.workers[w].Reading? && s.taken < |job.bodies|
    && s'.taken == s.taken + 1 && s'.reported == s.reported
    && (if s'.firstError then !s'.workers[w].Sending() else s'.workers[w].Holds(s.taken + 1))
    && !s'.workers[w].DirectAck?
  }

  /** The worker reports the part it holds, and holds nothing any more. */
  ghost predicate Reports(s: State, s': State, w: nat)
    requires w < |s.workers| == |s'.workers|
  {
    && s.workers[w].Sending() && s'.workers[w].Ready?
    && s'.taken == s.taken && s'.reported == s.reported + [s.workers[w].part]
    && s.workers[w].part in s'.recorded
  }

  /** The server stores or records only the held part, records only what it stores, and forgets nothing. */
  ghost predicate Serves(job: Job, s: State, s': State, w: nat)
    requires w < |s.workers| == |s'.workers|
  {
    && s.stored.Keys <= s'.stored.Keys && s.recorded.Keys <= s'.recorded.Keys
    && (forall p :: p in s'.stored ==> if p in s.stored && s'.stored[p] == s.stored[p] then true
          else s.workers[w].Holds(p) && 1 <= p <= |job.bodies| && s'.stored[p] == job.bodies[p - 1])
    && (forall p :: p in s'.recorded ==> if p in s.recorded && s'.recorded[p] == s.recorded[p] then true
          else s.workers[w].Holds(p) && p in s'.stored && 1 <= p <= |job.bodies| && s'.recorded[p] == job.bodies[p - 1])
    && (s'.workers[w].DirectAck? ==> s'.workers[w].part in s'.stored)
  }

  ghost predicate Moves(job: Job, s: State, s': State, w: nat) {
    && w < |s.workers| == |s'.workers|
    && (forall v :: 0 <= v < |s.workers| && v != w ==> s'.workers[v] == s.workers[v])
    && (s.firstError ==> s'.firstError)
    && (s'.workers[w].Failed? ==> s'.firstError)
    && Serves(job, s, s', w)
    && (Keeps(job, s, s', w) || Draws(job, s, s', w) || Reports(s, s', w))
  }

  lemma ServeServes(job: Job, s: State, s': State, w: nat, stores: bool, records: bool)
    requires InRange(job, s) && ServerAgrees(job, s)
    requires w < |s.workers| == |s'.workers| && s.workers[w].Sending()
    requires var s1 := Serve(job, s, s.workers[w].part, stores, records);
             s'.stored == s1.stored && s'.recorded == s1.recorded
    requires records ==> stores || s.workers[w].part in s.stored
    requires s'.workers[w].DirectAck? ==> s'.workers[w].Holds(s.workers[w].part) && (stores || s.workers[w].DirectAck?)
    ensures Serves(job, s, s', w)
  {
  }

  lemma ProxyMoves(job: Job, s: State, w: nat, reply: Reply, stores: bool, records: bool)
    requires InRange(job, s) && ServerAgrees(job, s)
    requires w < |s.workers| && s.workers[w].ProxySend? && Plausible(s, s.workers[w], reply, stores, records)
    ensures var worker := s.workers[w];
            Moves(job, s,
              AfterProxy(job, Serve(job, s, worker.part, stores, records), w, worker.part, worker.attempt, reply), w)
  {
    var worker := s.workers[w];
    var s' := AfterProxy(job, Serve(job, s, worker.part, stores, records), w, worker.part, worker.attempt, reply);
    ServeServes(job, s, s', w, stores, records);
    assert reply.Accepted? && !s.firstError ==> Reports(s, s', w);
    assert !(reply.Accepted? && !s.firstError) ==> Keeps(job, s, s', w);
  }

  lemma PutMoves(job: Job, s: State, w: nat, reply: Reply, stores: bool, records: bool)
    requires InRange(job, s) && ServerAgrees(job, s)
    requires w < |s.workers| && s.workers[w].DirectPut? && Plausible(s, s.workers[w], reply, stores, records)
    ensures var worker := s.workers[w];
            Moves(job, s,
              AfterPut(job, Serve(job, s, worker.part, stores, records), w, worker.part, worker.attempt, reply), w)
  {
    var worker := s.workers[w];
    var s' := AfterPut(job, Serve(job, s, worker.part, stores, records), w, worker.part, worker.attempt, reply);
    ServeServes(job, s, s', w, stores, records);
    assert Keeps(job, s, s', w);
  }

  lemma AckMoves(job: Job, s: State, w: nat, reply: Reply, stores: bool, records: bool)
    requires InRange(job, s) && ServerAgrees(job, s)
    requires w < |s.workers| && s.workers[w].DirectAck? && Plausible(s, s.workers[w], reply, stores, records)
    ensures var worker := s.workers[w];
            Moves(job, s,
              AfterAck(job, Serve(job, s, worker.part, stores, records), w, worker.part, worker.attempt, reply), w)
  {
    var worker := s.workers[w];
    var s' := AfterAck(job, Serve(job, s, worker.part, stores, records), w, worker.part, worker.attempt, reply);
    ServeServes(job, s, s', w, stores, records);
    assert reply.Accepted? && !s.firstError ==> Reports(s, s', w);
    assert !(reply.Accepted? && !s.firstError) ==> Keeps(job, s, s', w);
  }

  lemma StepMoves(job: Job, s: State, e: Event)
    requires InRange(job, s) && ServerAgrees(job, s) && Step(job, s, e).Some?
    ensures Moves(job, s, Step(job, s, e).value, e.w)
  {
    var s', w := Step(job, s, e).value, e.w;
    match e
    case Read(_) => assert Keeps(job, s, s', w);
    case Drawn(_) => assert if s.taken < |job.bodies| then Draws(job, s, s', w) else Keeps(job, s, s', w);
    case Replied(_, reply, stores, records) =>
      match s.workers[w]
      case ProxySend(_, _) => ProxyMoves(job, s, w, reply, stores, records);
      case DirectPut(_, _) => PutMoves(job, s, w, reply, stores, records);
      case DirectAck(_, _) => AckMoves(job, s, w, reply, stores, records);
  }

  lemma MoveKeepsServer(job: Job, s: State, s': State, w: nat)
    requires InRange(job, s) && ServerAgrees(job, s) && Moves(job, s, s', w)
    ensures ServerAgrees(job, s')
  {
  }

  lemma MoveKeepsDuplicateFree(job: Job, s: State, s': State, w: nat)
    requires InRange(job, s) && NoDuplicates(s) && Moves(job, s, s', w)
    ensures InRange(job, s') && NoDuplicates(s')
  {
  }

  lemma MoveKeepsCovered(job: Job, s: State, s': State, w: nat)
    requires InRange(job, s) && Moves(job, s, s', w) && !s'.firstError
    requires forall p: nat :: 1 <= p <= s.taken ==> p in s.reported || Held(s, p)
    ensures forall p: nat :: 1 <= p <= s'.taken ==> p in s'.reported || Held(s', p)
  {
    forall p: nat | 1 <= p <= s'.taken
      ensures p in s'.reported || Held(s', p)
    {
      if p > s.taken {
        assert s'.workers[w].Holds(p);
      } else if p !in s.reported {
        var v :| 0 <= v < |s.workers| && s.workers[v].Holds(p);
        assert s'.workers[v].Holds(p) || Reports(s, s', w);
      }
    }
  }

  lemma StepKeepsInv(job: Job, s: State, e: Event)
    requires Inv(job, s) && Step(job, s, e).Some?
    ensures Inv(job, Step(job, s, e).value)
  {
    var s' := Step(job, s, e).value;
    StepMoves(job, s, e);
    MoveKeepsServer(job, s, s', e.w);
    MoveKeepsDuplicateFree(job, s, s', e.w);
    if !s'.firstError {
      MoveKeepsCovered(job, s, s', e.w);
    }
  }

  lemma {:induction false} RunKeepsInv(job: Job, s: State, events: seq<Event>)
    requires Inv(job, s) && Run(job, s, events).Some?
    ensures Inv(job, Run(job, s, events).value)
    ensures |Run(job, s, events).value.workers| == |s.workers|
    decreases |events|
  {
    if |events| > 0 {
      StepKeepsInv(job, s, events[0]);
      StepMoves(job, s, events[0]);
      RunKeepsInv(job, Step(job, s, events[0]).value, events[1..]);
    }
  }

  // ---- What a normal return means ----

  /** The object that completing the multipart upload assembles: the recorded parts in number order. */
  function Assembled(parts: map<nat, Bytes>, count: nat): Bytes
    requires forall p :: 1 <= p <= count ==> p in parts
  {
    if count == 0 then [] else Assembled(parts, count - 1) + parts[count]
  }

  lemma {:induction false} AssembledParts(parts: map<nat, Bytes>, bodies: seq<Bytes>, count: nat)
    requires count <= |bodies|
    requires forall p :: 1 <= p <= count ==> p in parts && parts[p] == bodies[p - 1]
    ensures Assembled(parts, count) == Flatten(bodies[..count])
  {
    if count > 0 {
      AssembledParts(parts, bodies, count - 1);
      FlattenSnoc(bodies[..count - 1], bodies[count - 1]);
      assert bodies[..count - 1] + [bodies[count - 1]] == bodies[..count];
    }
  }

  /** Every part is reported exactly once and nothing else is, and the server holds exactly these parts. */
  ghost predicate Complete(job: Job, s: State) {
    && (forall p :: p in s.reported <==> 1 <= p <= |job.bodies|)
    && (forall i, j :: 0 <= i < j < |s.reported| ==> s.reported[i] != s.reported[j])
    && (forall p :: p in s.recorded <==> 1 <= p <= |job.bodies|)
    && (forall p :: p in s.recorded ==> s.recorded[p] == job.bodies[p - 1])
    && Assembled(s.recorded, |job.bodies|) == Flatten(job.bodies)
  }

  /**
   * Under every interleaving of workers, retries, lost replies and fallback: when a pool of at least
   * one worker returns normally, the iteration was exhausted without an error, parts one to k were
   * each reported exactly once, and the recorded parts assemble to the source bytes.
   */
  lemma NormalReturnIsComplete(job: Job, concurrency: nat, events: seq<Event>)
    requires concurrency > 0
    requires Run(job, Start(concurrency), events).Some? && ReturnsNormally(Run(job, Start(concurrency), events).value)
    ensures !job.sourceThrows
    ensures Complete(job, Run(job, Start(concurrency), events).value)
  {
    RunKeepsInv(job, Start(concurrency), events);
    var s := Run(job, Start(concurrency), events).value;
    assert s.workers[0].Exited?;
    forall p | 1 <= p <= |job.bodies|
      ensures p in s.reported && p in s.recorded
    {
      assert !Held(s, p);
    }
    AssembledParts(s.recorded, job.bodies, |job.bodies|);
    assert job.bodies[..|job.bodies|] == job.bodies;
  }

  predicate RunReturns(job: Job, concurrency: nat, events: seq<Event>) {
    Run(job, Start(concurrency), events).Some? && ReturnsNormally(Run(job, Start(concurrency), events).value)
  }

  /**
   * A pool asked for no workers returns at once. So a normal return proves completeness for every run
   * exactly when there is a worker or there is nothing to send.
   */
  lemma CompleteNeedsAWorker(job: Job, concurrency: nat)
    ensures (forall events :: RunReturns(job, concurrency, events) ==>
                                !job.sourceThrows && Complete(job, Run(job, Start(concurrency), events).value))
            <==> concurrency > 0 || (job.bodies == [] && !job.sourceThrows)
  {
    if concurrency > 0 {
      forall events | RunReturns(job, concurrency, events)
        ensures !job.sourceThrows && Complete(job, Run(job, Start(concurrency), events).value)
      {
        NormalReturnIsComplete(job, concurrency, events);
      }
    } else {
      NoWorkersNoRun(job, []);
      var s := Start(concurrency);
      assert s.reported == [] && s.recorded == map[];
      assert |job.bodies| > 0 ==> 1 !in s.reported;
      if job.bodies == [] && !job.sourceThrows {
        assert Complete(job, s);
        forall events | Run(job, s, events).Some?
          ensures Run(job, s, events).value == s
        {
          NoWorkersNoRun(job, events);
        }
      } else {
        assert job.sourceThrows || !Complete(job, s);
        assert RunReturns(job, concurrency, []);
      }
    }
  }

  lemma NoWorkersNoRun(job: Job, events: seq<Event>)
    ensures ReturnsNormally(Start(0))
    ensures Run(job, Start(0), events) == if |events| == 0 then Some(Start(0)) else None
  {
  }

  /** A worker that is not finished is never stuck: it reads, draws, or is answered, and may succeed. */
  lemma LiveWorkersCanMove(job: Job, s: State, w: nat)
    requires Inv(job, s) && w < |s.workers| && !s.workers[w].Exited? && !s.workers[w].Failed?
    ensures s.workers[w].Ready? ==> Step(job, s, Read(w)).Some?
    ensures s.workers[w].Reading? ==> Step(job, s, Drawn(w)).Some?
    ensures s.workers[w].Sending() ==>
            exists stores, records :: Step(job, s, Replied(w, Accepted, stores, records)).Some?
    ensures s.workers[w].Sending() ==> Step(job, s, Replied(w, Unreachable, false, false)).Some?
  {
    if s.workers[w].Sending() {
      var worker := s.workers[w];
      assert Step(job, s, Replied(w, Accepted, !worker.DirectAck?, !worker.DirectPut?)).Some?;
    }
  }

  /** Parts are reported at most once even when the pool fails. */
  lemma ReportedAtMostOnce(job: Job, concurrency: nat, events: seq<Event>)
    requires Run(job, Start(concurrency), events).Some?
    ensures var s := Run(job, Start(concurrency), events).value;
            && (forall i, j :: 0 <= i < j < |s.reported| ==> s.reported[i] != s.reported[j])
            && (forall p :: p in s.reported ==>
                  1 <= p <= |job.bodies| && p in s.recorded && s.recorded[p] == job.bodies[p - 1])
  {
    RunKeepsInv(job, Start(concurrency), events);
  }
}
