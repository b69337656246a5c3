/**
 * All runs of a card subscription's requests: webhook events in any order and repeated, sync, the
 * fallback by metadata, downgrades and Bitcoin prepayments, one database statement at a time.
 */
module SubscriptionRuns {
  import opened Bytes
  import opened Subscription

  /** Requests between two of their statements; `origin` is the webhook event a request handles, if any. */
  datatype Job =
    | FallbackPending(origin: Option<nat>, account: nat, sub: nat, plan: Plan, end: int)
    | FallbackReady(origin: Option<nat>, account: nat, sub: nat, plan: Plan, end: int, seenSub: Option<nat>)
    | DowngradePending(origin: Option<nat>, account: nat, sub: nat, at: int)
    | DowngradeReady(origin: Option<nat>, account: nat, sub: nat, at: int, seen: seq<Payment>,
                     nextPlan: Plan, nextExpires: int)
    | ExtendPending(k: nat)
    | ExtendReady(k: nat, account: nat, plan: Plan, seenExpires: Option<int>, until: int)
    | ExtendWritten(k: nat, until: int)
    | Finished

  /**
   * `admitted` events passed the check for their mark at some time, `applied` ones were handled to the
   * end, `processed` ones are marked; `running` and `idle` are the subscriptions Stripe has reported as
   * not ended, and as not active.
   */
  datatype State = State(accounts: map<nat, Account>, payments: seq<Payment>, now: int, jobs: seq<Job>,
                         admitted: set<nat>, applied: set<nat>, processed: set<nat>,
                         running: set<nat>, idle: set<nat>)

  datatype Event =
    | Tick(now: int)
    // webhook deliveries
    | Delivered(id: nat)
    | Marked(id: nat)
    | Ignored(origin: Option<nat>)
    | WebhookActive(origin: Option<nat>, sub: nat, plan: Plan, end: int, metadata: Option<nat>)
    | FallbackRead(i: nat, ended: bool, conflict: bool)
    | FallbackWrite(i: nat)
    // webhook or sync
    | SyncActive(account: nat, sub: nat, plan: Plan, end: int)
    | DowngradeBegin(origin: Option<nat>, account: nat, sub: nat)
    | DowngradeRead(i: nat)
    | DowngradeWrite(i: nat)
    | ClearPointer(origin: Option<nat>, who: set<nat>, sub: nat)
    // other routes
    | Subscribe(account: nat, sub: nat)
    | PaymentPaid(account: nat, bought: string)
    | ExtendRead(i: nat, account: nat, length: nat)
    | ExtendWrite(i: nat)
    | ExtendRecord(i: nat)

  predicate Admits(s: State, origin: Option<nat>) {
    origin.None? || origin.value in s.admitted
  }

  /** A request is over: its webhook event, if it handles one, may be marked. */
  function Done(s: State, origin: Option<nat>): State {
    if origin.None? then s else s.(applied := s.applied + {origin.value})
  }

  function EndJob(s: State, i: nat, origin: Option<nat>): State
    requires i < |s.jobs|
  {
    Done(s.(jobs := s.jobs[i := Finished]), origin)
  }

  /** The update by subscription; when it matches no row, the metadata names the account to try. */
  function OnWebhookActive(s: State, origin: Option<nat>, sub: nat, plan: Plan, end: int,
                           metadata: Option<nat>): State {
    var who := Holders(s.accounts, sub);
    var t := s.(accounts := Activated(s.accounts, who, plan, end));
    if who == {} && metadata.Some? then t.(jobs := t.jobs + [FallbackPending(origin, metadata.value, sub, plan, end)])
    else Done(t, origin)
  }

  /** Reads the row and asks Stripe: `ended` about this subscription, `conflict` about the tracked one. */
  function OnFallbackRead(s: State, i: nat, ended: bool, conflict: bool): State
    requires i < |s.jobs| && s.jobs[i].FallbackPending?
  {
    var j := s.jobs[i];
    if j.account !in s.accounts || ended then EndJob(s, i, j.origin)
    else
      var row := s.accounts[j.account];
      var another := row.sub.Some? && row.sub.value != j.sub;
      var safe := row.expires.None? || j.end >= row.expires.value;
      var idle := if another && !conflict then s.idle + {row.sub.value} else s.idle;
      var t := s.(running := s.running + {j.sub}, idle := idle);
      if (another && conflict) || !safe then EndJob(t, i, j.origin)
      else t.(jobs := s.jobs[i := FallbackReady(j.origin, j.account, j.sub, j.plan, j.end, row.sub)])
  }

  function OnFallbackWrite(s: State, i: nat): State
    requires i < |s.jobs| && s.jobs[i].FallbackReady?
  {
    var j := s.jobs[i];
    var t := EndJob(s, i, j.origin);
    if !MayReattach(s.accounts, j.account, j.seenSub, j.end) then t
    else t.(accounts := s.accounts[j.account := Account(j.plan, Some(j.end), Some(j.sub))])
  }

  function OnDowngradeRead(s: State, i: nat): State
    requires i < |s.jobs| && s.jobs[i].DowngradePending?
  {
    var j := s.jobs[i];
    s.(jobs := s.jobs[i := DowngradeReady(j.origin, j.account, j.sub, j.at, s.payments,
                                          BestPlan(s.payments, j.account, j.at), LastEnd(s.payments, j.account, j.at))])
  }

  function OnDowngradeWrite(s: State, i: nat): State
    requires i < |s.jobs| && s.jobs[i].DowngradeReady?
  {
    var j := s.jobs[i];
    EndJob(s, i, j.origin).(accounts := Downgraded(s.accounts, j.account, j.sub, j.nextPlan, j.nextExpires))
  }

  function EffectivePlan(plan: Plan, expires: Option<int>, now: int): Plan {
    if plan.Free? || expires.None? || expires.value <= now then Free else plan
  }

  /** A paid period starts where the current one ends, or now. */
  function ExtendPaidPeriod(expires: Option<int>, now: int, length: nat): (until: int)
    ensures until >= now + length && (expires.Some? ==> until >= expires.value + length)
    ensures until == now + length || (expires.Some? && until == expires.value + length)
  {
    (if expires.None? then now else Max(now, expires.value)) + length
  }

  /** Reads the payment's account and computes what to write. */
  function OnExtendRead(s: State, i: nat, account: nat, length: nat): Option<State>
    requires i < |s.jobs| && s.jobs[i].ExtendPending?
  {
    var k := s.jobs[i].k;
    if k >= |s.payments| || s.payments[k].account != account then None
    else
      var row := if account in s.accounts then s.accounts[account] else Account(Free, None, None);
      var paid, current := NormalizeStoredPlan(s.payments[k].plan), EffectivePlan(row.plan, row.expires, s.now);
      var plan := if Rank(current) > Rank(paid) then current else paid;
      var until := ExtendPaidPeriod(row.expires, s.now, length);
      Some(s.(jobs := s.jobs[i := ExtendReady(k, account, plan, row.expires, until)]))
  }

  /** Overwrites plan and expiry with what was computed from the earlier read. */
  function OnExtendWrite(s: State, i: nat): State
    requires i < |s.jobs| && s.jobs[i].ExtendReady?
  {
    var j := s.jobs[i];
    var t := s.(jobs := s.jobs[i := ExtendWritten(j.k, j.until)]);
    if j.account !in s.accounts then t
    else t.(accounts := s.accounts[j.account := Account(j.plan, Some(j.until), s.accounts[j.account].sub)])
  }

  /** Only then does the payment's row say how far it reaches. */
  function OnExtendRecord(s: State, i: nat): Option<State>
    requires i < |s.jobs| && s.jobs[i].ExtendWritten?
  {
    var j := s.jobs[i];
    if j.k >= |s.payments| then None
    else
      var paid := s.payments[j.k].(until := Some(j.until));
      Some(s.(payments := s.payments[j.k := paid], jobs := s.jobs[i := Finished]))
  }

  /** The event is a waiting request's next statement. */
  predicate JobEvent(e: Event) {
    || e.FallbackRead? || e.FallbackWrite? || e.DowngradeRead? || e.DowngradeWrite?
    || e.ExtendRead? || e.ExtendWrite? || e.ExtendRecord?
  }

  function OnJob(s: State, e: Event): Option<State>
    requires JobEvent(e)
  {
    if e.i >= |s.jobs| then None
    else match (e, s.jobs[e.i])
      case (FallbackRead(i, ended, conflict), FallbackPending(_, _, _, _, _)) =>
        Some(OnFallbackRead(s, i, ended, conflict))
      case (FallbackWrite(i), FallbackReady(_, _, _, _, _, _)) => Some(OnFallbackWrite(s, i))
      case (DowngradeRead(i), DowngradePending(_, _, _, _)) => Some(OnDowngradeRead(s, i))
      case (DowngradeWrite(i), DowngradeReady(_, _, _, _, _, _, _)) => Some(OnDowngradeWrite(s, i))
      case (ExtendRead(i, account, length), ExtendPending(_)) => OnExtendRead(s, i, account, length)
      case (ExtendWrite(i), ExtendReady(_, _, _, _, _)) => Some(OnExtendWrite(s, i))
      case (ExtendRecord(i), ExtendWritten(_, _)) => OnExtendRecord(s, i)
      case (_, _) => None
  }

  function Step(s: State, e: Event): Option<State> {
    match e
    case Tick(now) => if now >= s.now then Some(s.(now := now)) else None
    case Delivered(id) => Some(if id in s.processed then s else s.(admitted := s.admitted + {id}))
    case Marked(id) => if id in s.applied then Some(s.(processed := s.processed + {id})) else None
    case Ignored(origin) => if Admits(s, origin) then Some(Done(s, origin)) else None
    case WebhookActive(origin, sub, plan, end, metadata) =>
      if Admits(s, origin) then Some(OnWebhookActive(s, origin, sub, plan, end, metadata)) else None
    case SyncActive(account, sub, plan, end) =>
      if StillTracks(s.accounts, account, sub) then Some(s.(accounts := Activated(s.accounts, {account}, plan, end)))
      else Some(s)
    case DowngradeBegin(origin, account, sub) =>
      if Admits(s, origin) then Some(s.(jobs := s.jobs + [DowngradePending(origin, account, sub, s.now)])) else None
    case ClearPointer(origin, who, sub) =>
      if Admits(s, origin) then Some(Done(s.(accounts := Cleared(s.accounts, who, sub)), origin)) else None
    case Subscribe(account, sub) =>
      if account !in s.accounts then Some(s)
      else Some(s.(accounts := s.accounts[account := s.accounts[account].(sub := Some(sub))]))
    case PaymentPaid(account, bought) =>
      Some(s.(payments := s.payments + [Payment(account, bought, None, true)],
              jobs := s.jobs + [ExtendPending(|s.payments|)]))
    case _ => OnJob(s, e)
  }

  function Run(s: State, events: seq<Event>): Option<State> {
    if |events| == 0 then Some(s)
    else
      var before := Run(s, events[..|events| - 1]);
      if before.None? then None else Step(before.value, events[|events| - 1])
  }

  /** Nothing is under way or marked yet; the tables are arbitrary. */
  predicate Init(s: State) {
    s.jobs == [] && s.admitted == {} && s.applied == {} && s.processed == {}
  }

  lemma RunSnoc(s: State, events: seq<Event>, u: State, e: Event)
    requires Run(s, events) == Some(u)
    ensures Run(s, events + [e]) == Step(u, e)
  {
    assert (events + [e])[..|events|] == events;
  }

  // ---- Reordered and repeated updates of a tracked subscription ----

  /**
   * The event neither moves this account's pointer away from `sub`, nor downgrades it, nor extends it by a
   * prepayment.
   */
  predicate Spares(e: Event, account: nat, sub: nat) {
    match e
    case WebhookActive(_, other, _, _, metadata) => other == sub || metadata != Some(account)
    case DowngradeBegin(_, a, other) => a != account || other != sub
    case ClearPointer(_, who, other) => account !in who || other != sub
    case Subscribe(a, other) => a != account || other == sub
    case ExtendRead(_, a, _) => a != account
    case _ => true
  }

  predicate AllSpare(events: seq<Event>, account: nat, sub: nat) {
    forall i :: 0 <= i < |events| ==> Spares(events[i], account, sub)
  }

  /** The period end an active update carries for an account that tracks `sub`. */
  function Carried(e: Event, account: nat, sub: nat): set<int> {
    match e
    case WebhookActive(_, other, _, end, _) => if other == sub then {end} else {}
    case SyncActive(a, other, _, end) => if a == account && other == sub then {end} else {}
    case _ => {}
  }

  function EventEnds(events: seq<Event>, account: nat, sub: nat): set<int> {
    if |events| == 0 then {}
    else EventEnds(events[..|events| - 1], account, sub) + Carried(events[|events| - 1], account, sub)
  }

  predicate JobSpares(j: Job, account: nat, sub: nat) {
    && (j.FallbackPending? || j.FallbackReady? || j.ExtendReady? ==> j.account != account)
    && (j.DowngradePending? || j.DowngradeReady? ==> j.account != account || j.sub != sub)
  }

  predicate JobsSpare(jobs: seq<Job>, account: nat, sub: nat) {
    forall i :: 0 <= i < |jobs| ==> JobSpares(jobs[i], account, sub)
  }

  lemma SparedJobStep(s: State, e: Event, account: nat, sub: nat)
    requires StillTracks(s.accounts, account, sub) && JobsSpare(s.jobs, account, sub) && Spares(e, account, sub)
    requires JobEvent(e)
    requires OnJob(s, e).Some?
    ensures var t := OnJob(s, e).value;
            account in t.accounts && t.accounts[account] == s.accounts[account] && JobsSpare(t.jobs, account, sub)
  {
    assert JobSpares(s.jobs[e.i], account, sub);
  }

  lemma SparedStep(s: State, e: Event, account: nat, sub: nat)
    requires StillTracks(s.accounts, account, sub) && JobsSpare(s.jobs, account, sub)
    requires Spares(e, account, sub) && Step(s, e).Some?
    ensures var t := Step(s, e).value;
            && StillTracks(t.accounts, account, sub) && JobsSpare(t.jobs, account, sub)
            && IsLatest(t.accounts[account].expires, s.accounts[account].expires, Carried(e, account, sub))
  {
    if JobEvent(e) {
      SparedJobStep(s, e, account, sub);
    } else if e.WebhookActive? && e.sub == sub {
      assert account in Holders(s.accounts, sub);
      LaterIsLatest(s.accounts[account].expires, e.end);
    } else if e.SyncActive? && e.account == account && e.sub == sub {
      LaterIsLatest(s.accounts[account].expires, e.end);
    }
  }

  lemma LatestComposes(x: Option<int>, y: Option<int>, z: Option<int>, a: set<int>, b: set<int>)
    requires IsLatest(y, x, a) && IsLatest(z, y, b)
    ensures IsLatest(z, x, a + b)
  {
    forall end | end in a + b
      ensures z.Some? && z.value >= end
    {
      assert end in a || end in b;
    }
  }

  /**
   * An account that tracks a subscription, from any state whose waiting requests spare it and over any
   * events that do: it goes on tracking it, and its expiry is the latest of the starting one and the
   * ends the active updates carry.
   */
  lemma {:induction false} FinalExpiryIsLatest(s: State, events: seq<Event>, account: nat, sub: nat)
    requires StillTracks(s.accounts, account, sub) && JobsSpare(s.jobs, account, sub)
    requires AllSpare(events, account, sub) && Run(s, events).Some?
    ensures var t := Run(s, events).value;
            && StillTracks(t.accounts, account, sub) && JobsSpare(t.jobs, account, sub)
            && IsLatest(t.accounts[account].expires, s.accounts[account].expires, EventEnds(events, account, sub))
  {
    if |events| > 0 {
      var before, e := events[..|events| - 1], events[|events| - 1];
      FinalExpiryIsLatest(s, before, account, sub);
      var u := Run(s, before).value;
      SparedStep(u, e, account, sub);
      var t := Step(u, e).value;
      LatestComposes(s.accounts[account].expires, u.accounts[account].expires, t.accounts[account].expires,
                     EventEnds(before, account, sub), Carried(e, account, sub));
    }
  }

  predicate SameExpiry(one: map<nat, Account>, other: map<nat, Account>, account: nat) {
    account in one && account in other && one[account].expires == other[account].expires
  }

  /** Two event lists whose updates carry the same set of ends leave the account the same expiry. */
  lemma SameEndsSameExpiry(s: State, one: seq<Event>, other: seq<Event>, account: nat, sub: nat)
    requires StillTracks(s.accounts, account, sub) && JobsSpare(s.jobs, account, sub)
    requires Run(s, one).Some? && Run(s, other).Some?
    requires AllSpare(one, account, sub) && AllSpare(other, account, sub)
    requires EventEnds(one, account, sub) == EventEnds(other, account, sub)
    ensures SameExpiry(Run(s, one).value.accounts, Run(s, other).value.accounts, account)
  {
    FinalExpiryIsLatest(s, one, account, sub);
    FinalExpiryIsLatest(s, other, account, sub);
    LatestIsUnique(Run(s, one).value.accounts[account].expires, Run(s, other).value.accounts[account].expires,
                   s.accounts[account].expires, EventEnds(one, account, sub));
  }

  lemma {:induction false} EndIsCarried(events: seq<Event>, account: nat, sub: nat, end: int)
    ensures end in EventEnds(events, account, sub) <==>
              exists i :: 0 <= i < |events| && end in Carried(events[i], account, sub)
  {
    if |events| > 0 {
      var before := events[..|events| - 1];
      EndIsCarried(before, account, sub, end);
      if end in EventEnds(before, account, sub) {
        var i :| 0 <= i < |before| && end in Carried(before[i], account, sub);
        assert end in Carried(events[i], account, sub);
      }
      if i :| 0 <= i < |events| && end in Carried(events[i], account, sub) {
        assert i < |before| ==> end in Carried(before[i], account, sub);
      }
    }
  }

  lemma SameEventsSameEnds(one: seq<Event>, other: seq<Event>, account: nat, sub: nat)
    requires forall e :: e in one <==> e in other
    ensures EventEnds(one, account, sub) == EventEnds(other, account, sub)
  {
    forall end
      ensures end in EventEnds(one, account, sub) <==> end in EventEnds(other, account, sub)
    {
      EndIsCarried(one, account, sub, end);
      EndIsCarried(other, account, sub, end);
      if end in EventEnds(one, account, sub) {
        var i :| 0 <= i < |one| && end in Carried(one[i], account, sub);
        assert one[i] in other;
      }
      if end in EventEnds(other, account, sub) {
        var i :| 0 <= i < |other| && end in Carried(other[i], account, sub);
        assert other[i] in one;
      }
    }
  }

  /**
   * Reordering the events, or repeating some of them, leaves the same final expiry: only which events
   * occur matters.
   */
  lemma OrderAndRepetitionDoNotMatter(s: State, one: seq<Event>, other: seq<Event>, account: nat, sub: nat)
    requires StillTracks(s.accounts, account, sub) && JobsSpare(s.jobs, account, sub)
    requires Run(s, one).Some? && Run(s, other).Some?
    requires AllSpare(one, account, sub)
    requires forall e :: e in one <==> e in other
    ensures SameExpiry(Run(s, one).value.accounts, Run(s, other).value.accounts, account)
  {
    SameEventsSameEnds(one, other, account, sub);
    forall i | 0 <= i < |other|
      ensures Spares(other[i], account, sub)
    {
      assert other[i] in one;
    }
    SameEndsSameExpiry(s, one, other, account, sub);
  }

  /** An active event delivered again, at any later time and after any sparing events, changes no expiry. */
  lemma RedeliveryChangesNothing(s: State, events: seq<Event>, e: Event, account: nat, sub: nat)
    requires StillTracks(s.accounts, account, sub) && JobsSpare(s.jobs, account, sub)
    requires AllSpare(events, account, sub) && Run(s, events).Some?
    requires e in events && (e.WebhookActive? || e.SyncActive?)
    ensures Run(s, events + [e]).Some?
    ensures SameExpiry(Run(s, events).value.accounts, Run(s, events + [e]).value.accounts, account)
  {
    RunSnoc(s, events, Run(s, events).value, e);
    AdmittedStays(s, events, e);
    OrderAndRepetitionDoNotMatter(s, events, events + [e], account, sub);
  }

  lemma {:induction false} AdmittedStays(s: State, events: seq<Event>, e: Event)
    requires Run(s, events).Some? && e in events && (e.WebhookActive? || e.SyncActive?)
    ensures e.WebhookActive? ==> Admits(Run(s, events).value, e.origin)
  {
    var before, last := events[..|events| - 1], events[|events| - 1];
    assert events == before + [last];
    if e != last {
      AdmittedStays(s, before, e);
    }
  }
}
