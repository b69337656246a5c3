/**
 * A card subscription's effect on an account's plan and its expiry: the statements of the webhook, the
 * sync endpoint and the downgrade, and one webhook event handled from start to end. Times are numbers;
 * the program compares fixed-width ISO strings, which order the same way.
 */
module Subscription {
  import opened Bytes

  datatype Plan = Free | Standard | Premium

  function Rank(p: Plan): nat {
    match p
    case Free => 0
    case Standard => 1
    case Premium => 2
  }

  function NormalizeStoredPlan(raw: string): Plan {
    if raw == "standard" then Standard
    else if raw == "premium" || raw == "paid" then Premium
    else Free
  }

  datatype Account = Account(plan: Plan, expires: Option<int>, sub: Option<nat>)

  /** A Bitcoin prepayment; `until` is the end it bought, once it is known. */
  datatype Payment = Payment(account: nat, plan: string, until: Option<int>, paid: bool)

  // ---- The statements ----

  /** `max(coalesce(plan_expires_at, end), end)`. */
  function Later(expires: Option<int>, end: int): int {
    if expires.None? then end else Max(expires.value, end)
  }

  function Holders(accounts: map<nat, Account>, sub: nat): set<nat> {
    set a | a in accounts && accounts[a].sub == Some(sub)
  }

  /** The active update, on the rows in `who`. */
  function Activated(accounts: map<nat, Account>, who: set<nat>, plan: Plan, end: int): map<nat, Account> {
    map a | a in accounts ::
      if a in who then Account(plan, Some(Later(accounts[a].expires, end)), accounts[a].sub) else accounts[a]
  }

  predicate MayReattach(accounts: map<nat, Account>, account: nat, seenSub: Option<nat>, end: int) {
    && account in accounts
    && accounts[account].sub == seenSub
    && (accounts[account].expires.None? || accounts[account].expires.value <= end)
  }

  predicate Live(p: Payment, account: nat, at: int) {
    p.account == account && p.paid && p.until.Some? && p.until.value > at
  }

  /** The later of `at` and the last live prepaid end. */
  function LastEnd(payments: seq<Payment>, account: nat, at: int): int {
    if |payments| == 0 then at
    else
      var rest, p := LastEnd(payments[..|payments| - 1], account, at), payments[|payments| - 1];
      if Live(p, account, at) then Max(rest, p.until.value) else rest
  }

  function BestPlan(payments: seq<Payment>, account: nat, at: int): Plan {
    if |payments| == 0 then Free
    else
      var rest, p := BestPlan(payments[..|payments| - 1], account, at), payments[|payments| - 1];
      if Live(p, account, at) && Rank(NormalizeStoredPlan(p.plan)) > Rank(rest) then NormalizeStoredPlan(p.plan)
      else rest
  }

  /**
   * `LastEnd` is the least time not before `at` nor before any end beyond `at` that this account itself
   * has paid for.
   */
  lemma {:induction false} LastEndIsLeast(payments: seq<Payment>, account: nat, at: int)
    ensures LastEnd(payments, account, at) >= at
    ensures forall p :: p in payments && p.account == account && p.paid && p.until.Some? && p.until.value > at ==>
              p.until.value <= LastEnd(payments, account, at)
    ensures LastEnd(payments, account, at) == at
         || exists p :: p in payments && p.account == account && p.paid && p.until.Some?
                        && p.until.value == LastEnd(payments, account, at) > at
  {
    if |payments| > 0 {
      var rest, p := payments[..|payments| - 1], payments[|payments| - 1];
      LastEndIsLeast(rest, account, at);
      assert payments == rest + [p];
    }
  }

  /** The account itself has paid for one of these plans, beyond `at`. */
  predicate HasPaidFor(payments: seq<Payment>, account: nat, at: int, plans: set<string>) {
    exists p :: p in payments && p.account == account && p.paid && p.until.Some? && p.until.value > at
                && p.plan in plans
  }

  lemma PaidForSnoc(payments: seq<Payment>, p: Payment, account: nat, at: int, plans: set<string>)
    ensures HasPaidFor(payments + [p], account, at, plans) <==>
              HasPaidFor(payments, account, at, plans)
              || (p.account == account && p.paid && p.until.Some? && p.until.value > at && p.plan in plans)
  {
    assert p in payments + [p];
    if HasPaidFor(payments, account, at, plans) {
      var q :| q in payments && q.account == account && q.paid && q.until.Some? && q.until.value > at
               && q.plan in plans;
      assert q in payments + [p];
    }
  }

  /**
   * `BestPlan` is the highest plan this account itself has paid for beyond `at`, "paid" being an old
   * name of "premium", and `Free` when there is none.
   */
  lemma {:induction false} BestPlanIsHighest(payments: seq<Payment>, account: nat, at: int)
    ensures BestPlan(payments, account, at).Premium? <==> HasPaidFor(payments, account, at, {"premium", "paid"})
    ensures BestPlan(payments, account, at).Standard? <==>
              !HasPaidFor(payments, account, at, {"premium", "paid"}) && HasPaidFor(payments, account, at, {"standard"})
  {
    if |payments| > 0 {
      var rest, p := payments[..|payments| - 1], payments[|payments| - 1];
      BestPlanIsHighest(rest, account, at);
      assert payments == rest + [p];
      PaidForSnoc(rest, p, account, at, {"premium", "paid"});
      PaidForSnoc(rest, p, account, at, {"standard"});
    }
  }

  /** Without a live payment of its own an account has nothing to fall back on, whatever others have paid. */
  lemma OthersPaymentsDoNotCount(payments: seq<Payment>, account: nat, at: int)
    requires forall p :: p in payments && p.account == account && p.paid && p.until.Some? ==> p.until.value <= at
    ensures LastEnd(payments, account, at) == at && BestPlan(payments, account, at) == Free
  {
    LastEndIsLeast(payments, account, at);
    BestPlanIsHighest(payments, account, at);
  }

  predicate StillTracks(accounts: map<nat, Account>, account: nat, sub: nat) {
    account in accounts && accounts[account].sub == Some(sub)
  }

  function Downgraded(accounts: map<nat, Account>, account: nat, sub: nat, plan: Plan, expires: int)
    : map<nat, Account>
  {
    if StillTracks(accounts, account, sub) then accounts[account := Account(plan, Some(expires), None)] else accounts
  }

  function Cleared(accounts: map<nat, Account>, who: set<nat>, sub: nat): map<nat, Account> {
    map a | a in accounts :: if a in who && accounts[a].sub == Some(sub) then accounts[a].(sub := None) else accounts[a]
  }

  predicate Lowered(before: Option<int>, after: Option<int>) {
    before.Some? && (after.None? || after.value < before.value)
  }

  /** The latest of the starting expiry and the ends. */
  predicate IsLatest(expires: Option<int>, start: Option<int>, ends: set<int>) {
    && (start.Some? ==> expires.Some? && expires.value >= start.value)
    && (forall end :: end in ends ==> expires.Some? && expires.value >= end)
    && (expires == start || (expires.Some? && expires.value in ends))
  }

  /**
   * The accounts in `who` have the plan and the later of their expiry and `end`; they still point where
   * they did, and every other account is as it was.
   */
  predicate RaisedFor(before: map<nat, Account>, after: map<nat, Account>, who: set<nat>, plan: Plan, end: int) {
    && after.Keys == before.Keys
    && forall a :: a in before ==>
         if a in who then
           after[a].plan == plan && after[a].sub == before[a].sub
             && IsLatest(after[a].expires, before[a].expires, {end})
         else after[a] == before[a]
  }

  lemma LatestIsUnique(x: Option<int>, y: Option<int>, start: Option<int>, ends: set<int>)
    requires IsLatest(x, start, ends) && IsLatest(y, start, ends)
    ensures x == y
  {
    if x.Some? {
      AtLeast(x, y, start, ends);
    }
    if y.Some? {
      AtLeast(y, x, start, ends);
    }
  }

  lemma AtLeast(x: Option<int>, y: Option<int>, start: Option<int>, ends: set<int>)
    requires IsLatest(x, start, ends) && IsLatest(y, start, ends) && x.Some?
    ensures y.Some? && x.value <= y.value
  {
    var m := x.value;
    if start.Some? && start.value == m {
      assert y.value >= m;
    } else {
      assert x != start;
      assert m in ends;
      assert y.value >= m;
    }
  }

  lemma LaterIsLatest(expires: Option<int>, end: int)
    ensures IsLatest(Some(Later(expires, end)), expires, {end})
  {
  }

  /** There is only one such outcome: the one the active update computes. */
  lemma RaisedForIsActivated(before: map<nat, Account>, after: map<nat, Account>, who: set<nat>, plan: Plan, end: int)
    requires RaisedFor(before, after, who, plan, end)
    ensures after == Activated(before, who, plan, end)
  {
    forall a | a in before
      ensures after[a] == Activated(before, who, plan, end)[a]
    {
      if a in who {
        LaterIsLatest(before[a].expires, end);
        LatestIsUnique(after[a].expires, Some(Later(before[a].expires, end)), before[a].expires, {end});
      }
    }
  }

  // ---- One webhook event ----

  /** What a subscription's status means to the program. */
  datatype Status = Running | NeverActivated | Dead | Intermediate

  /** `plan` is `None` for an unknown price, `periodEnd` for a missing or zero one. */
  datatype StripeEvent =
    | Updated(sub: nat, status: Status, periodEnd: Option<int>, plan: Option<Plan>, metadata: Option<nat>)
    | Deleted(sub: nat)
    | Unrelated

  datatype OtherReply = Found(active: bool) | NotFound | Unavailable

  /** What Stripe says when asked: whether only the pointer goes, and about the two subscriptions. */
  datatype Answers = Answers(onlyClear: Option<bool>, current: Option<Status>, other: OtherReply)

  predicate Activates(event: StripeEvent) {
    event.Updated? && event.status.Running? && event.periodEnd.Some? && event.plan.Some?
  }

  predicate Ends(event: StripeEvent) {
    event.Deleted? || (event.Updated? && (event.status.NeverActivated? || event.status.Dead?))
  }

  /** The account tracks nothing, the same subscription, or one that Stripe does not call active. */
  predicate FreeToTake(row: Account, sub: nat, other: OtherReply) {
    row.sub.None? || row.sub.value == sub || other == Found(false) || other == NotFound
  }

  predicate HasEnded(status: Status) {
    status.NeverActivated? || status.Dead?
  }

  /** No row matched the active event, and the account of its metadata is there. */
  predicate FallsToMetadata(before: map<nat, Account>, event: StripeEvent) {
    Activates(event) && Holders(before, event.sub) == {} && event.metadata.Some? && event.metadata.value in before
  }

  /** The subscription has not ended meanwhile, the account is free to take, and its expiry does not go back. */
  predicate Attaches(before: map<nat, Account>, event: StripeEvent, answers: Answers)
    requires FallsToMetadata(before, event)
  {
    var row := before[event.metadata.value];
    && answers.current.Some? && !HasEnded(answers.current.value)
    && FreeToTake(row, event.sub, answers.other)
    && !Lowered(row.expires, event.periodEnd)
  }

  /** Stripe answered every question the handler asks. */
  predicate Answered(before: map<nat, Account>, event: StripeEvent, answers: Answers) {
    if Ends(event) then answers.onlyClear.Some?
    else if !FallsToMetadata(before, event) then true
    else
      var row := before[event.metadata.value];
      && answers.current.Some?
      && (HasEnded(answers.current.value) || row.sub.None? || row.sub.value == event.sub || !answers.other.Unavailable?)
  }

  /**
   * What an active event does: accounts that track the subscription are raised; if there are none, the
   * account of its metadata is attached to it exactly when it may be, and nothing else changes.
   */
  predicate ActiveEffect(before: map<nat, Account>, after: map<nat, Account>, event: StripeEvent, answers: Answers)
    requires Activates(event)
  {
    if Holders(before, event.sub) != {} then
      RaisedFor(before, after, Holders(before, event.sub), event.plan.value, event.periodEnd.value)
    else if FallsToMetadata(before, event) && Attaches(before, event, answers) then
      after == before[event.metadata.value := Account(event.plan.value, event.periodEnd, Some(event.sub))]
    else after == before
  }

  /**
   * What an ending event does: either pointers to the subscription go and nothing else does, or one of
   * the accounts that track it falls back to what its prepayments still cover.
   */
  predicate EndEffect(before: map<nat, Account>, after: map<nat, Account>, sub: nat, onlyClear: bool,
                      payments: seq<Payment>, now: int)
  {
    if onlyClear then after == Cleared(before, before.Keys, sub)
    else if Holders(before, sub) == {} then after == before
    else exists a :: a in Holders(before, sub) && FallsBack(before, after, a, payments, now)
  }

  predicate FallsBack(before: map<nat, Account>, after: map<nat, Account>, a: nat, payments: seq<Payment>, now: int) {
    after == before[a := Account(BestPlan(payments, a, now), Some(LastEnd(payments, a, now)), None)]
  }

  /** A handler that Stripe leaves without an answer changes nothing; any other does what its event means. */
  predicate Effect(before: map<nat, Account>, after: map<nat, Account>, event: StripeEvent, answers: Answers,
                   payments: seq<Payment>, now: int)
  {
    if !Answered(before, event, answers) then after == before
    else if Activates(event) then ActiveEffect(before, after, event, answers)
    else if Ends(event) then EndEffect(before, after, event.sub, answers.onlyClear.value, payments, now)
    else after == before
  }

  /**
   * An active event that nobody tracks, with an account in its metadata: that account is attached exactly
   * when the subscription has not ended meanwhile, nothing else is tracked that Stripe calls active, and
   * the expiry does not go back.
   */
  lemma MetadataMeans(before: map<nat, Account>, after: map<nat, Account>, event: StripeEvent, answers: Answers,
                      payments: seq<Payment>, now: int, account: nat)
    requires Effect(before, after, event, answers, payments, now)
    requires event.Updated? && event.status.Running? && event.periodEnd.Some? && event.plan.Some?
    requires event.metadata == Some(account) && account in before
    requires forall a :: a in before ==> before[a].sub != Some(event.sub)
    ensures after == if && (answers.current == Some(Running) || answers.current == Some(Intermediate))
                        && (before[account].sub.None? || answers.other == Found(false) || answers.other == NotFound)
                        && (before[account].expires.Some? ==> before[account].expires.value <= event.periodEnd.value)
                     then before[account := Account(event.plan.value, event.periodEnd, Some(event.sub))]
                     else before
  {
    assert Holders(before, event.sub) == {};
  }

  /**
   * The handler fails exactly on a question left open: how an ended subscription ended, whether the one
   * to attach has ended meanwhile, or whether the other one that its account tracks is active.
   */
  lemma UnansweredMeans(before: map<nat, Account>, event: StripeEvent, answers: Answers)
    ensures !Answered(before, event, answers) <==>
              || (&& (event.Deleted? || (event.Updated? && (event.status.Dead? || event.status.NeverActivated?)))
                  && answers.onlyClear.None?)
              || (&& event.Updated? && event.status.Running? && event.periodEnd.Some? && event.plan.Some?
                  && event.metadata.Some? && event.metadata.value in before
                  && (forall a :: a in before ==> before[a].sub != Some(event.sub))
                  && (answers.current.None?
                      || (&& (answers.current.value.Running? || answers.current.value.Intermediate?)
                          && before[event.metadata.value].sub.Some? && answers.other.Unavailable?)))
  {
    if event.Updated? && Holders(before, event.sub) == {} {
      forall a | a in before
        ensures before[a].sub != Some(event.sub)
      {
        assert a !in Holders(before, event.sub);
      }
    }
  }

  /** No event but an ending one lowers any account's expiry. */
  lemma OnlyEndingEventsLower(before: map<nat, Account>, after: map<nat, Account>, event: StripeEvent,
                              answers: Answers, payments: seq<Payment>, now: int, account: nat)
    requires Effect(before, after, event, answers, payments, now) && account in before
    ensures account in after
    ensures Lowered(before[account].expires, after[account].expires) ==>
              Ends(event) && before[account].sub == Some(event.sub) && answers.onlyClear == Some(false)
              && after[account].expires == Some(LastEnd(payments, account, now))
  {
  }

  /**
   * A subscription that has ended, by deletion, failure or expiry before it ever ran: without an answer
   * from Stripe nothing changes; one that never ran loses its pointers and nothing else; otherwise one
   * account that tracked it falls back to what it has prepaid itself, and tracks nothing any more.
   */
  lemma EndedMeans(before: map<nat, Account>, after: map<nat, Account>, event: StripeEvent, answers: Answers,
                   payments: seq<Payment>, now: int)
    requires Effect(before, after, event, answers, payments, now)
    requires event.Deleted? || (event.Updated? && (event.status.Dead? || event.status.NeverActivated?))
    ensures answers.onlyClear.None? ==> after == before
    ensures answers.onlyClear == Some(true) ==>
              && after.Keys == before.Keys
              && forall a :: a in before ==>
                   && after[a].plan == before[a].plan && after[a].expires == before[a].expires
                   && after[a].sub == if before[a].sub == Some(event.sub) then None else before[a].sub
    ensures answers.onlyClear == Some(false) && (forall a :: a in before ==> before[a].sub != Some(event.sub)) ==>
              after == before
    ensures answers.onlyClear == Some(false) && (exists a :: a in before && before[a].sub == Some(event.sub)) ==>
              exists a :: a in before && before[a].sub == Some(event.sub)
                          && after == before[a := Account(BestPlan(payments, a, now),
                                                          Some(LastEnd(payments, a, now)), None)]
  {
    if answers.onlyClear == Some(false) && exists a :: a in before && before[a].sub == Some(event.sub) {
      var a :| a in before && before[a].sub == Some(event.sub);
      assert a in Holders(before, event.sub);
    }
  }

  /** Any other event changes nothing unless it reports a running subscription with its period and plan. */
  lemma OthersMeanNothing(before: map<nat, Account>, after: map<nat, Account>, event: StripeEvent, answers: Answers,
                          payments: seq<Payment>, now: int)
    requires Effect(before, after, event, answers, payments, now)
    requires event.Unrelated? || (event.Updated? && event.status.Intermediate?)
             || (event.Updated? && event.status.Running? && (event.periodEnd.None? || event.plan.None?))
    ensures after == before
  {
  }

  /** A running subscription with its period and plan raises exactly the accounts that track it. */
  lemma RunningMeans(before: map<nat, Account>, after: map<nat, Account>, event: StripeEvent, answers: Answers,
                     payments: seq<Payment>, now: int, account: nat)
    requires Effect(before, after, event, answers, payments, now)
    requires event.Updated? && event.status.Running? && event.periodEnd.Some? && event.plan.Some?
    requires account in before && before[account].sub == Some(event.sub)
    ensures after.Keys == before.Keys
    ensures after[account].plan == event.plan.value && after[account].sub == before[account].sub
    ensures var start, end := before[account].expires, event.periodEnd.value;
            after[account].expires == if start.Some? && start.value > end then start else Some(end)
    ensures forall a :: a in before && before[a].sub != Some(event.sub) ==> after[a] == before[a]
  {
    assert account in Holders(before, event.sub);
  }

  /** The tables, written by one request at a time. */
  class Billing {
    var accounts: map<nat, Account>
    var payments: seq<Payment>
    var processed: set<nat>

    constructor (accounts: map<nat, Account>)
      ensures this.accounts == accounts && payments == [] && processed == {}
    {
      this.accounts := accounts;
      payments := [];
      processed := {};
    }

    /** The webhook's active update; `changes` is the number of rows it matched. */
    method Activate(sub: nat, plan: Plan, end: int) returns (changes: nat)
      modifies this`accounts
      ensures RaisedFor(old(accounts), accounts, Holders(old(accounts), sub), plan, end)
      ensures accounts.Keys == old(accounts).Keys
      ensures forall a :: a in accounts && old(accounts)[a].sub != Some(sub) ==> accounts[a] == old(accounts)[a]
      ensures forall a :: a in accounts && old(accounts)[a].sub == Some(sub) ==>
                && accounts[a].plan == plan && accounts[a].sub == Some(sub) && accounts[a].expires.Some?
                && accounts[a].expires.value >= end && !Lowered(old(accounts)[a].expires, accounts[a].expires)
                && (accounts[a].expires == old(accounts)[a].expires || accounts[a].expires.value == end)
      ensures changes == |Holders(old(accounts), sub)|
    {
      var who := set a | a in accounts && accounts[a].sub == Some(sub);
      assert who == Holders(accounts, sub);
      changes := |who|;
      forall a | a in who {
        LaterIsLatest(accounts[a].expires, end);
      }
      accounts := map a | a in accounts ::
        if a in who then Account(plan, Some(Later(accounts[a].expires, end)), accounts[a].sub) else accounts[a];
    }

    /** The loop over the live prepayments. */
    method NextPaidState(account: nat, now: int) returns (nextExpires: int, nextPlan: Plan)
      ensures nextExpires == LastEnd(payments, account, now)
      ensures nextPlan == BestPlan(payments, account, now)
    {
      nextExpires, nextPlan := now, Free;
      var i := 0;
      while i < |payments|
        invariant 0 <= i <= |payments|
        invariant nextExpires == LastEnd(payments[..i], account, now)
        invariant nextPlan == BestPlan(payments[..i], account, now)
      {
        assert payments[..i + 1][..i] == payments[..i];
        if Live(payments[i], account, now) {
          if payments[i].until.value > nextExpires {
            nextExpires := payments[i].until.value;
          }
          var paidPlan := NormalizeStoredPlan(payments[i].plan);
          if Rank(paidPlan) > Rank(nextPlan) {
            nextPlan := paidPlan;
          }
        }
        i := i + 1;
      }
      assert payments[..i] == payments;
    }

    /** A card has ended: only prepayments still count. An unknown account is looked up by the subscription. */
    method DowngradeExpiredCardPlan(sub: nat, known: Option<nat>, now: int) returns (id: Option<nat>)
      modifies this`accounts
      ensures known.Some? ==> id == known
      ensures known.None? ==>
                if Holders(old(accounts), sub) == {} then id == None
                else id.Some? && id.value in Holders(old(accounts), sub)
      ensures accounts ==
              if id.None? then old(accounts)
              else Downgraded(old(accounts), id.value, sub,
                              BestPlan(payments, id.value, now), LastEnd(payments, id.value, now))
      ensures id.Some? && id.value in old(accounts) && old(accounts)[id.value].sub == Some(sub)
              && (forall p :: p in payments && p.account == id.value && p.paid && p.until.Some? ==>
                    p.until.value <= now)
              ==> accounts == old(accounts)[id.value := Account(Free, Some(now), None)]
      ensures id.Some? && (id.value !in old(accounts) || old(accounts)[id.value].sub != Some(sub)) ==>
                accounts == old(accounts)
    {
      id := known;
      if known.None? {
        var found := set a | a in accounts && accounts[a].sub == Some(sub);
        if found == {} {
          return None;
        }
        var a :| a in found;
        id := Some(a);
      }
      var nextExpires, nextPlan := NextPaidState(id.value, now);
      if id.value in accounts && accounts[id.value].sub == Some(sub) {
        accounts := accounts[id.value := Account(nextPlan, Some(nextExpires), None)];
        if forall p :: p in payments && p.account == id.value && p.paid && p.until.Some? ==> p.until.value <= now {
          OthersPaymentsDoNotCount(payments, id.value, now);
        }
      }
    }

    method ClearNeverActivatedSubscriptionPointer(sub: nat)
      modifies this`accounts
      ensures accounts.Keys == old(accounts).Keys && Holders(accounts, sub) == {}
      ensures forall a :: a in accounts ==>
                && accounts[a].plan == old(accounts)[a].plan && accounts[a].expires == old(accounts)[a].expires
                && (a !in Holders(old(accounts), sub) ==> accounts[a] == old(accounts)[a])
      ensures accounts == Cleared(old(accounts), old(accounts).Keys, sub)
    {
      accounts := map a | a in accounts ::
        if accounts[a].sub == Some(sub) then accounts[a].(sub := None) else accounts[a];
    }

    /** The active event whose update matched no row. */
    method AttachByMetadata(event: StripeEvent, answers: Answers) returns (ok: bool)
      requires Activates(event) && Holders(accounts, event.sub) == {}
      modifies this`accounts
      ensures ok <==> Answered(old(accounts), event, answers)
      ensures if ok then ActiveEffect(old(accounts), accounts, event, answers) else accounts == old(accounts)
      ensures accounts != old(accounts) ==>
                && event.metadata.Some? && event.metadata.value in old(accounts)
                && var was := old(accounts)[event.metadata.value];
                && accounts == old(accounts)[event.metadata.value :=
                                             Account(event.plan.value, event.periodEnd, Some(event.sub))]
                && (was.expires.Some? ==> was.expires.value <= event.periodEnd.value)
                && (was.sub.None? || was.sub.value == event.sub
                    || answers.other == Found(false) || answers.other == NotFound)
                && (answers.current == Some(Running) || answers.current == Some(Intermediate))
    {
      if event.metadata.None? || event.metadata.value !in accounts {
        return true;
      }
      var a := event.metadata.value;
      var current := accounts[a];
      if answers.current.None? {
        return false;
      }
      if answers.current.value.NeverActivated? || answers.current.value.Dead? {
        return true;
      }
      var conflicts := false;
      if current.sub.Some? && current.sub.value != event.sub {
        if answers.other.Unavailable? {
          return false;
        }
        conflicts := answers.other == Found(true);
      }
      var safe := current.expires.None? || event.periodEnd.value >= current.expires.value;
      if !conflicts && safe {
        accounts := accounts[a := Account(event.plan.value, event.periodEnd, Some(event.sub))];
      }
      ok := true;
    }

    method ApplyEvent(event: StripeEvent, answers: Answers, now: int) returns (ok: bool)
      modifies this`accounts
      ensures ok <==> Answered(old(accounts), event, answers)
      ensures Effect(old(accounts), accounts, event, answers, payments, now)
    {
      ok := true;
      if Activates(event) {
        var changes := Activate(event.sub, event.plan.value, event.periodEnd.value);
        if changes == 0 {
          ok := AttachByMetadata(event, answers);
        }
      } else if Ends(event) {
        if answers.onlyClear.None? {
          return false;
        }
        if answers.onlyClear.value {
          ClearNeverActivatedSubscriptionPointer(event.sub);
        } else {
          var id := DowngradeExpiredCardPlan(event.sub, None, now);
          assert id.Some? ==> FallsBack(old(accounts), accounts, id.value, payments, now);
        }
      }
    }

    /**
     * An event is applied unless it is marked, and marked once its handler has succeeded. When the
     * handler or, `unmarked`, the marking fails, nothing is marked and the sender delivers it again.
     */
    method ProcessEventOnce(eventId: Option<nat>, event: StripeEvent, answers: Answers, now: int, unmarked: bool)
      returns (ok: bool, handled: bool)
      modifies this`accounts, this`processed
      ensures var duplicate := eventId.Some? && eventId.value in old(processed);
              && (handled <==> !duplicate && Answered(old(accounts), event, answers))
              && (ok <==> duplicate || (handled && (eventId.None? || !unmarked)))
      ensures if handled then Effect(old(accounts), accounts, event, answers, payments, now)
              else accounts == old(accounts)
      ensures old(processed) <= processed
      ensures forall id :: id in processed && id !in old(processed) ==> ok && eventId == Some(id)
      ensures ok && eventId.Some? ==> eventId.value in processed
    {
      if eventId.Some? && eventId.value in processed {
        return true, false;
      }
      handled := ApplyEvent(event, answers, now);
      ok := handled;
      if ok && eventId.Some? {
        if unmarked {
          return false, true;
        }
        processed := processed + {eventId.value};
      }
    }
  }
}
