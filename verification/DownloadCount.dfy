/**
 * Counted downloads: the route adds one to `download_count` before it streams the object, gives it
 * back when the transfer breaks off, and deletes the file after the last delivery
 * (server/routes/file/[fileId]/route.ts).
 */
module DownloadCount {
  import opened Bytes

  // ---- The row's two statements ----

  /** The new count, when the guarded addition finds a row below its limit. */
  function Added(count: Option<nat>, max: nat): Option<nat> {
    if count.Some? && count.value < max then Some(count.value + 1) else None
  }

  function GivenBack(count: Option<nat>): Option<nat> {
    if count.Some? && count.value > 0 then Some(count.value - 1) else count
  }

  /** The row of one counted file; `count` is `None` once the row is gone. */
  class FileRow {
    var count: Option<nat>
    const max: nat

    constructor (max: nat)
      ensures this.max == max && count == Some(0)
    {
      this.max := max;
      count := Some(0);
    }

    /** The final download is the one whose addition reaches the limit. */
    method CountDownload() returns (granted: bool, final: bool)
      modifies this
      ensures granted == Added(old(count), max).Some?
      ensures count == if granted then Added(old(count), max) else old(count)
      ensures final <==> granted && count == Some(max)
    {
      granted := count.Some? && count.value < max;
      if granted {
        count := Some(count.value + 1);
      }
      final := granted && count.value >= max;
    }

    /**
     * Gives one back and never goes below zero or above the limit: it undoes exactly one addition. A row
     * that is gone stays gone.
     */
    method RestoreDownloadCount()
      modifies this
      ensures count.Some? <==> old(count).Some?
      ensures old(count).Some? ==> count.value == if old(count).value > 0 then old(count).value - 1 else 0
      ensures old(count).Some? && old(count).value <= max ==> count.value <= max
      ensures forall before: Option<nat> :: Added(before, max).Some? && Added(before, max) == old(count) ==>
              count == before
      ensures count == GivenBack(old(count))
    {
      if count.Some? && count.value > 0 {
        count := Some(count.value - 1);
      }
    }
  }

  // ---- All requests at once ----

  /** Where a counted request stands; `sent` are the bytes that reached the client. */
  datatype Phase = Counted | Streaming(sent: nat) | Restoring | DeletingObject | DeletingRow | Ended

  datatype Request = Request(phase: Phase, final: bool)

  /**
   * `received` lists, for each delivery, the bytes the client had when it was taken for complete;
   * `lost` counts the give-backs that failed in the database; `deletedHere` says that the route's own
   * deletion removed the row.
   */
  datatype State = State(count: Option<nat>, stored: bool, requests: seq<Request>,
                         received: seq<nat>, lost: nat, deletedHere: bool) {
    function Delivered(): nat {
      |received|
    }
  }

  datatype Event =
    | Claim
    | GetObject(i: nat, fails: bool)
    | Chunk(i: nat, n: nat)
    | PipeEnds(i: nat, fails: bool)
    | Restore(i: nat, fails: bool)
    | DeleteObject(i: nat, fails: bool)
    | DeleteRow(i: nat, fails: bool)
    | RemovedElsewhere

  function At(s: State, i: nat, phase: Phase): State
    requires i < |s.requests|
  {
    s.(requests := s.requests[i := s.requests[i].(phase := phase)])
  }

  function OnClaim(s: State, max: nat): State {
    var added := Added(s.count, max);
    if added.None? then s
    else s.(count := added, requests := s.requests + [Request(Counted, added.value >= max)])
  }

  /** The whole object reached the client: the last allowed download goes on to delete the file. */
  function Deliver(s: State, i: nat): State
    requires i < |s.requests| && s.requests[i].phase.Streaming?
  {
    var next := if s.requests[i].final then DeletingObject else Ended;
    At(s, i, next).(received := s.received + [s.requests[i].phase.sent])
  }

  function OnRestore(s: State, i: nat, fails: bool): State
    requires i < |s.requests|
  {
    if fails then At(s, i, Ended).(lost := s.lost + 1) else At(s, i, Ended).(count := GivenBack(s.count))
  }

  function OnRequest(s: State, i: nat, e: Event, size: nat): Option<State>
    requires i < |s.requests|
  {
    match (e, s.requests[i].phase)
    case (GetObject(_, fails), Counted) => Some(At(s, i, if fails || !s.stored then Restoring else Streaming(0)))
    case (Chunk(_, n), Streaming(sent)) => if sent + n <= size then Some(At(s, i, Streaming(sent + n))) else None
    case (PipeEnds(_, fails), Streaming(sent)) =>
      if sent >= size then Some(Deliver(s, i)) else if fails then Some(At(s, i, Restoring)) else None
    case (Restore(_, fails), Restoring) => Some(OnRestore(s, i, fails))
    case (DeleteObject(_, fails), DeletingObject) =>
      Some(if fails then At(s, i, Ended) else At(s, i, DeletingRow).(stored := false))
    case (DeleteRow(_, fails), DeletingRow) =>
      Some(if fails || s.count.None? then At(s, i, Ended) else At(s, i, Ended).(count := None, deletedHere := true))
    case (_, _) => None
  }

  function Step(s: State, e: Event, max: nat, size: nat): Option<State> {
    match e
    case Claim => Some(OnClaim(s, max))
    case RemovedElsewhere => Some(s.(count := None, stored := false))
    case _ => if e.i < |s.requests| then OnRequest(s, e.i, e, size) else None
  }

  function Run(s: State, events: seq<Event>, max: nat, size: nat): Option<State> {
    if |events| == 0 then Some(s)
    else
      var before := Run(s, events[..|events| - 1], max, size);
      if before.None? then None else Step(before.value, events[|events| - 1], max, size)
  }

  function Init(): State {
    State(Some(0), true, [], [], 0, false)
  }

  // ---- Conservation ----

  /** Requests that hold a unit of the count: counted, not yet delivered, not yet given back. */
  predicate Holds(r: Request) {
    r.phase.Counted? || r.phase.Streaming? || r.phase.Restoring?
  }

  function Holders(requests: seq<Request>): nat {
    if |requests| == 0 then 0
    else Holders(requests[..|requests| - 1]) + if Holds(requests[|requests| - 1]) then 1 else 0
  }

  lemma {:induction false} HoldersUpdate(requests: seq<Request>, i: nat, r: Request)
    requires i < |requests|
    ensures Holders(requests[i := r]) + (if Holds(requests[i]) then 1 else 0)
         == Holders(requests) + (if Holds(r) then 1 else 0)
  {
    var last := |requests| - 1;
    if i == last {
      assert requests[i := r][..last] == requests[..last];
    } else {
      assert requests[i := r][..last] == requests[..last][i := r];
      HoldersUpdate(requests[..last], i, r);
    }
  }

  lemma HoldersSnoc(requests: seq<Request>, r: Request)
    ensures Holders(requests + [r]) == Holders(requests) + if Holds(r) then 1 else 0
  {
    assert (requests + [r])[..|requests|] == requests;
  }

  function Used(s: State): nat {
    s.Delivered() + Holders(s.requests) + s.lost
  }

  /** While the row exists its count is exactly what was delivered, is held, or was lost to a failed give-back. */
  predicate CountInv(s: State, max: nat) {
    Used(s) <= max && (s.count.Some? ==> s.count.value == Used(s))
  }

  predicate Deletes(r: Request) {
    r.phase.DeletingObject? || r.phase.DeletingRow?
  }

  /** Deletion needs the final claim and an earlier complete delivery. */
  predicate DeletionInv(s: State) {
    && (s.deletedHere ==> s.Delivered() > 0 && s.count.None?)
    && (forall i :: 0 <= i < |s.requests| && Deletes(s.requests[i]) ==>
          s.Delivered() > 0 && s.requests[i].final)
  }

  /** The row is deleted after the object: a file whose row the route has deleted is not stored any more. */
  predicate ObjectFirst(s: State) {
    && (s.deletedHere ==> !s.stored)
    && (forall i :: 0 <= i < |s.requests| && s.requests[i].phase.DeletingRow? ==> !s.stored)
  }

  lemma StepKeepsObjectFirst(s: State, e: Event, max: nat, size: nat)
    requires ObjectFirst(s) && Step(s, e, max, size).Some?
    ensures ObjectFirst(Step(s, e, max, size).value)
  {
  }

  /** Nothing more than the object is sent, and only the whole object counts as delivered. */
  predicate WholeInv(s: State, size: nat) {
    && (forall i :: 0 <= i < |s.requests| && s.requests[i].phase.Streaming? ==> s.requests[i].phase.sent <= size)
    && (forall k :: 0 <= k < |s.received| ==> s.received[k] == size)
  }

  lemma StepKeepsWhole(s: State, e: Event, max: nat, size: nat)
    requires WholeInv(s, size) && Step(s, e, max, size).Some?
    ensures WholeInv(Step(s, e, max, size).value, size)
  {
  }

  /** What one request's step does to the count's three uses. */
  predicate Accounts(s: State, t: State, i: nat) {
    && i < |s.requests| == |t.requests|
    && t.requests == s.requests[i := t.requests[i]]
    && var held := if Holds(s.requests[i]) then 1 else 0;
    && var holding := if Holds(t.requests[i]) then 1 else 0;
    && var freed := held - holding - (t.Delivered() - s.Delivered()) - (t.lost - s.lost);
    && 0 <= freed <= held
    && (t.count.Some? ==>
          s.count.Some? && t.count.value == if freed > 0 then Max(0, s.count.value - 1) else s.count.value)
  }

  lemma RequestAccounts(s: State, i: nat, e: Event, size: nat)
    requires i < |s.requests| && OnRequest(s, i, e, size).Some?
    ensures Accounts(s, OnRequest(s, i, e, size).value, i)
  {
  }

  lemma AccountsKeepCount(s: State, t: State, i: nat, max: nat)
    requires CountInv(s, max) && Accounts(s, t, i)
    ensures CountInv(t, max)
  {
    HoldersUpdate(s.requests, i, t.requests[i]);
  }

  lemma RequestKeepsCount(s: State, i: nat, e: Event, max: nat, size: nat)
    requires CountInv(s, max) && i < |s.requests| && OnRequest(s, i, e, size).Some?
    ensures CountInv(OnRequest(s, i, e, size).value, max)
  {
    RequestAccounts(s, i, e, size);
    AccountsKeepCount(s, OnRequest(s, i, e, size).value, i, max);
  }

  lemma StepKeepsCount(s: State, e: Event, max: nat, size: nat)
    requires CountInv(s, max) && Step(s, e, max, size).Some?
    ensures CountInv(Step(s, e, max, size).value, max)
  {
    if e.Claim? {
      var added := Added(s.count, max);
      if added.Some? {
        HoldersSnoc(s.requests, Request(Counted, added.value >= max));
      }
    } else if !e.RemovedElsewhere? {
      RequestKeepsCount(s, e.i, e, max, size);
    }
  }

  /** What one request's step does towards the deletion. */
  predicate Proceeds(s: State, t: State, i: nat) {
    && i < |s.requests| == |t.requests|
    && t.requests == s.requests[i := t.requests[i]]
    && t.Delivered() >= s.Delivered()
    && (t.deletedHere ==>
          (s.deletedHere || Deletes(s.requests[i])) && (t.count.None? || (s.deletedHere && t.count == s.count)))
    && (Deletes(t.requests[i]) ==>
          t.requests[i].final && (Deletes(s.requests[i]) || t.Delivered() > s.Delivered()))
  }

  lemma RequestProceeds(s: State, i: nat, e: Event, size: nat)
    requires DeletionInv(s) && i < |s.requests| && OnRequest(s, i, e, size).Some?
    ensures Proceeds(s, OnRequest(s, i, e, size).value, i)
  {
  }

  lemma ProceedingKeepsDeletion(s: State, t: State, i: nat)
    requires DeletionInv(s) && Proceeds(s, t, i)
    ensures DeletionInv(t)
  {
    forall k | 0 <= k < |t.requests| && Deletes(t.requests[k])
      ensures t.Delivered() > 0 && t.requests[k].final
    {
      assert k != i ==> Deletes(s.requests[k]);
    }
  }

  lemma StepKeepsDeletion(s: State, e: Event, max: nat, size: nat)
    requires DeletionInv(s) && Step(s, e, max, size).Some?
    ensures DeletionInv(Step(s, e, max, size).value)
  {
    if !e.Claim? && !e.RemovedElsewhere? {
      RequestProceeds(s, e.i, e, size);
      ProceedingKeepsDeletion(s, OnRequest(s, e.i, e, size).value, e.i);
    }
  }

  lemma {:induction false} RunKeepsInv(events: seq<Event>, max: nat, size: nat)
    requires Run(Init(), events, max, size).Some?
    ensures CountInv(Run(Init(), events, max, size).value, max) && DeletionInv(Run(Init(), events, max, size).value)
    ensures WholeInv(Run(Init(), events, max, size).value, size) && ObjectFirst(Run(Init(), events, max, size).value)
  {
    if |events| > 0 {
      var before := events[..|events| - 1];
      RunKeepsInv(before, max, size);
      StepKeepsCount(Run(Init(), before, max, size).value, events[|events| - 1], max, size);
      StepKeepsDeletion(Run(Init(), before, max, size).value, events[|events| - 1], max, size);
      StepKeepsWhole(Run(Init(), before, max, size).value, events[|events| - 1], max, size);
      StepKeepsObjectFirst(Run(Init(), before, max, size).value, events[|events| - 1], max, size);
    }
  }

  // ---- What every run guarantees ----

  /**
   * Complete deliveries, requests in progress and lost give-backs never exceed the limit; while the
   * row exists they are exactly its count.
   */
  lemma CountIsConserved(events: seq<Event>, max: nat, size: nat)
    requires Run(Init(), events, max, size).Some?
    ensures var s := Run(Init(), events, max, size).value;
            && s.Delivered() + Holders(s.requests) + s.lost <= max
            && (s.count.Some? ==> s.count.value == s.Delivered() + Holders(s.requests) + s.lost)
  {
    RunKeepsInv(events, max, size);
  }

  /** So a download is granted exactly while some of the limit is neither used up, held nor lost. */
  lemma GrantedWhileUnused(events: seq<Event>, max: nat, size: nat)
    requires Run(Init(), events, max, size).Some?
    ensures var s := Run(Init(), events, max, size).value;
            OnClaim(s, max) != s <==> s.count.Some? && s.Delivered() + Holders(s.requests) + s.lost < max
  {
    RunKeepsInv(events, max, size);
    var s := Run(Init(), events, max, size).value;
    if Added(s.count, max).Some? {
      assert |OnClaim(s, max).requests| == |s.requests| + 1;
    }
  }

  /**
   * The route starts deleting the file only for the final claim, and after some client received every
   * byte of the object; every delivery counted was of the whole object.
   */
  lemma DeletedOnlyAfterDelivery(events: seq<Event>, max: nat, size: nat)
    requires Run(Init(), events, max, size).Some?
    ensures var s := Run(Init(), events, max, size).value;
            && (s.deletedHere ==> s.Delivered() >= 1 && !s.stored)
            && (forall i :: 0 <= i < |s.requests| && Deletes(s.requests[i]) ==>
                  s.requests[i].final && s.Delivered() >= 1)
            && (forall k :: 0 <= k < |s.received| ==> s.received[k] == size)
  {
    RunKeepsInv(events, max, size);
  }

  /**
   * A transfer that ends: when the client had every byte it is delivered and never given back, whatever
   * the pipe reports; when it broke off, or the object was missing or could not be read, nothing was
   * delivered and the count is given back by the next call.
   */
  lemma TransferEnds(s: State, i: nat, fails: bool, max: nat, size: nat)
    requires i < |s.requests| && s.requests[i].phase.Streaming? && Step(s, PipeEnds(i, fails), max, size).Some?
    ensures var t := Step(s, PipeEnds(i, fails), max, size).value;
            && t.count == s.count
            && if s.requests[i].phase.sent >= size then
                 && t.Delivered() == s.Delivered() + 1
                 && t.requests[i].phase == if s.requests[i].final then DeletingObject else Ended
               else
                 && fails && t.Delivered() == s.Delivered() && t.requests[i].phase == Restoring
                 && Step(t, Restore(i, false), max, size).Some?
                 && Step(t, Restore(i, false), max, size).value.count
                    == if s.count.Some? && s.count.value > 0 then Some(s.count.value - 1) else s.count
  {
  }

  /** A claimed download streams exactly when its object is there and can be read; otherwise it is given back. */
  lemma ObjectIsFetched(s: State, i: nat, fails: bool, max: nat, size: nat)
    requires i < |s.requests| && s.requests[i].phase.Counted?
    ensures Step(s, GetObject(i, fails), max, size).Some?
    ensures Step(s, GetObject(i, fails), max, size).value.requests[i].phase
            == if s.stored && !fails then Streaming(0) else Restoring
  {
  }

  /** A give-back that fails is lost, and a deletion that fails is not tried again: the request ends all the same. */
  lemma FailuresEndTheRequest(s: State, i: nat, e: Event, max: nat, size: nat)
    requires i < |s.requests| && e in {Restore(i, true), DeleteObject(i, true), DeleteRow(i, true)}
    requires Step(s, e, max, size).Some?
    ensures var t := Step(s, e, max, size).value;
            && t.requests[i].phase.Ended?
            && t == s.(requests := t.requests, lost := s.lost + if e.Restore? then 1 else 0)
  {
  }

  /** A deletion that succeeds removes the object first, then the row, unless the row is gone already. */
  lemma DeletionGoesOn(s: State, i: nat, max: nat, size: nat)
    requires i < |s.requests|
    ensures s.requests[i].phase.DeletingObject? ==>
              && Step(s, DeleteObject(i, false), max, size).Some?
              && var t := Step(s, DeleteObject(i, false), max, size).value;
              && t.requests[i].phase.DeletingRow? && !t.stored && t.count == s.count
    ensures s.requests[i].phase.DeletingRow? ==>
              && Step(s, DeleteRow(i, false), max, size).Some?
              && var t := Step(s, DeleteRow(i, false), max, size).value;
              && t.requests[i].phase.Ended? && t.count.None? && t.stored == s.stored
              && t.deletedHere == (s.deletedHere || s.count.Some?)
  {
  }

  // ---- Is the file kept until its last allowed delivery? ----

  /** The route never deletes a file that still had deliveries left. */
  ghost predicate KeepsToTheLast(max: nat, size: nat) {
    forall events :: Run(Init(), events, max, size).Some? && Run(Init(), events, max, size).value.deletedHere ==>
      Run(Init(), events, max, size).value.Delivered() == max
  }

  lemma RunSnoc(events: seq<Event>, e: Event, max: nat, size: nat)
    requires Run(Init(), events, max, size).Some?
    ensures Run(Init(), events + [e], max, size) == Step(Run(Init(), events, max, size).value, e, max, size)
  {
    assert (events + [e])[..|events|] == events;
  }

  lemma ClaimAll(max: nat, size: nat) returns (events: seq<Event>)
    requires max >= 1
    ensures Run(Init(), events, max, size).Some?
    ensures var s := Run(Init(), events, max, size).value;
            s.count.Some? && s.stored && |s.requests| == max && s.Delivered() == 0
              && s.requests[max - 1] == Request(Counted, true)
  {
    events := [];
    var k := 0;
    while k < max
      invariant 0 <= k <= max && Run(Init(), events, max, size).Some?
      invariant var s := Run(Init(), events, max, size).value;
                && s.count == Some(k) && s.stored && |s.requests| == k && s.Delivered() == 0
                && (k > 0 ==> s.requests[k - 1] == Request(Counted, k == max))
    {
      RunSnoc(events, Claim, max, size);
      events := events + [Claim];
      k := k + 1;
    }
  }

  /** The final request runs through to the deletion of the row. */
  lemma FinishLast(s: State, i: nat, max: nat, size: nat) returns (a: State, b: State, c: State, d: State, t: State)
    requires i < |s.requests| && s.requests[i] == Request(Counted, true) && s.stored && s.count.Some?
             && s.Delivered() == 0
    ensures Step(s, GetObject(i, false), max, size) == Some(a) && Step(a, Chunk(i, size), max, size) == Some(b)
    ensures Step(b, PipeEnds(i, false), max, size) == Some(c) && Step(c, DeleteObject(i, false), max, size) == Some(d)
    ensures Step(d, DeleteRow(i, false), max, size) == Some(t) && t.deletedHere && t.Delivered() == 1
  {
    a := At(s, i, Streaming(0));
    b := At(a, i, Streaming(size));
    c := Deliver(b, i);
    d := At(c, i, DeletingRow).(stored := false);
    t := At(d, i, Ended).(count := None, deletedHere := true);
  }

  lemma {:induction false} RunAppend(events: seq<Event>, rest: seq<Event>, max: nat, size: nat)
    requires Run(Init(), events, max, size).Some?
    ensures Run(Init(), events + rest, max, size) == Run(Run(Init(), events, max, size).value, rest, max, size)
  {
    if |rest| == 0 {
      assert events + rest == events;
    } else {
      assert (events + rest)[..|events + rest| - 1] == events + rest[..|rest| - 1];
      RunAppend(events, rest[..|rest| - 1], max, size);
    }
  }

  lemma FiveSteps(s: State, e: seq<Event>, max: nat, size: nat, a: State, b: State, c: State, d: State, t: State)
    requires |e| == 5
    requires Step(s, e[0], max, size) == Some(a) && Step(a, e[1], max, size) == Some(b)
             && Step(b, e[2], max, size) == Some(c)
    requires Step(c, e[3], max, size) == Some(d) && Step(d, e[4], max, size) == Some(t)
    ensures Run(s, e, max, size) == Some(t)
  {
    assert e[..1][..0] == [] && e[..2][..1] == e[..1] && e[..3][..2] == e[..2] && e[..4][..3] == e[..3]
      && e[..5][..4] == e[..4];
    assert e[..5] == e;
    assert Run(s, e[..1], max, size) == Some(a);
    assert Run(s, e[..2], max, size) == Some(b);
    assert Run(s, e[..3], max, size) == Some(c);
    assert Run(s, e[..4], max, size) == Some(d);
  }

  /** All allowed downloads are claimed; the last claim, the final one, finishes first. */
  lemma FinalOvertakes(max: nat, size: nat) returns (events: seq<Event>)
    requires max >= 1
    ensures Run(Init(), events, max, size).Some?
    ensures Run(Init(), events, max, size).value.deletedHere && Run(Init(), events, max, size).value.Delivered() == 1
  {
    var claims := ClaimAll(max, size);
    var s, i := Run(Init(), claims, max, size).value, max - 1;
    var a, b, c, d, t := FinishLast(s, i, max, size);
    var rest := [GetObject(i, false), Chunk(i, size), PipeEnds(i, false), DeleteObject(i, false), DeleteRow(i, false)];
    FiveSteps(s, rest, max, size, a, b, c, d, t);
    RunAppend(claims, rest, max, size);
    events := claims + rest;
  }

  /**
   * It does for the limits the program sets (one download), and for no larger limit: the final claim
   * may be delivered while earlier ones are still under way, or after they gave theirs back.
   */
  lemma KeepsToTheLastIffSingle(max: nat, size: nat)
    ensures KeepsToTheLast(max, size) <==> max <= 1
  {
    if max <= 1 {
      forall events | Run(Init(), events, max, size).Some? && Run(Init(), events, max, size).value.deletedHere
        ensures Run(Init(), events, max, size).value.Delivered() == max
      {
        RunKeepsInv(events, max, size);
      }
    } else {
      var events := FinalOvertakes(max, size);
      assert Run(Init(), events, max, size).value.Delivered() != max;
    }
  }
}
