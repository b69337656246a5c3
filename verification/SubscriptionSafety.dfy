/** When an expiry may go down, whom the fallback may take over, and what event marks and prepayments keep. */
module SubscriptionSafety {
  import opened Bytes
  import opened Subscription
  import opened SubscriptionRuns

  // ---- Invariants of waiting requests ----

  /** Payments only come to be, and each gets its end once. */
  predicate SeenBefore(seen: seq<Payment>, payments: seq<Payment>) {
    && |seen| <= |payments|
    && forall k :: 0 <= k < |seen| ==>
         seen[k] == payments[k] || (seen[k].until.None? && payments[k] == seen[k].(until := payments[k].until))
  }

  predicate Extends(j: Job) {
    j.ExtendPending? || j.ExtendReady? || j.ExtendWritten?
  }

  /** An extension belongs to a payment whose end is still open. */
  predicate OpenPayment(payments: seq<Payment>, k: nat) {
    k < |payments| && payments[k].until.None?
  }

  predicate JobInv(j: Job, payments: seq<Payment>, now: int) {
    match j
    case DowngradePending(_, _, _, at) => at <= now
    case DowngradeReady(_, account, _, at, seen, nextPlan, nextExpires) =>
      && at <= now
      && SeenBefore(seen, payments)
      && nextPlan == BestPlan(seen, account, at)
      && nextExpires == LastEnd(seen, account, at)
    case ExtendPending(k) => OpenPayment(payments, k)
    case ExtendReady(k, account, _, seenExpires, until) =>
      && OpenPayment(payments, k)
      && payments[k].account == account
      && (seenExpires.Some? ==> seenExpires.value <= until)
    case ExtendWritten(k, _) => OpenPayment(payments, k)
    case _ => true
  }

  predicate JobsInv(jobs: seq<Job>, payments: seq<Payment>, now: int) {
    forall i :: 0 <= i < |jobs| ==> JobInv(jobs[i], payments, now)
  }

  /** Each payment is extended by one request. */
  predicate OneExtension(jobs: seq<Job>) {
    forall i, j :: 0 <= i < j < |jobs| && Extends(jobs[i]) && Extends(jobs[j]) ==> jobs[i].k != jobs[j].k
  }

  predicate ExtensionsInv(s: State) {
    JobsInv(s.jobs, s.payments, s.now) && OneExtension(s.jobs)
  }

  lemma OneMoreJob(jobs: seq<Job>, payments: seq<Payment>, now: int, j: Job)
    requires JobsInv(jobs, payments, now) && OneExtension(jobs) && JobInv(j, payments, now)
    requires Extends(j) ==> forall i :: 0 <= i < |jobs| && Extends(jobs[i]) ==> jobs[i].k != j.k
    ensures JobsInv(jobs + [j], payments, now) && OneExtension(jobs + [j])
  {
  }

  lemma JobMoves(jobs: seq<Job>, payments: seq<Payment>, now: int, i: nat, j: Job)
    requires JobsInv(jobs, payments, now) && OneExtension(jobs) && i < |jobs| && JobInv(j, payments, now)
    requires Extends(j) ==> Extends(jobs[i]) && j.k == jobs[i].k
    ensures JobsInv(jobs[i := j], payments, now) && OneExtension(jobs[i := j])
  {
  }

  lemma PaymentAdded(jobs: seq<Job>, payments: seq<Payment>, now: int, p: Payment)
    requires JobsInv(jobs, payments, now)
    ensures JobsInv(jobs, payments + [p], now)
  {
    forall i | 0 <= i < |jobs|
      ensures JobInv(jobs[i], payments + [p], now)
    {
      assert JobInv(jobs[i], payments, now);
    }
  }

  /** Recording an end disturbs no other extension and nothing that was read before. */
  lemma EndRecorded(jobs: seq<Job>, payments: seq<Payment>, now: int, i: nat, until: int)
    requires JobsInv(jobs, payments, now) && OneExtension(jobs) && i < |jobs| && jobs[i].ExtendWritten?
    ensures jobs[i].k < |payments|
    ensures var k := jobs[i].k;
            JobsInv(jobs[i := Finished], payments[k := payments[k].(until := Some(until))], now)
              && OneExtension(jobs[i := Finished])
  {
    assert JobInv(jobs[i], payments, now);
    var k, after := jobs[i].k, jobs[i := Finished];
    var paid := payments[k := payments[k].(until := Some(until))];
    forall n | 0 <= n < |after|
      ensures JobInv(after[n], paid, now)
    {
      assert JobInv(jobs[n], payments, now);
      assert n != i && Extends(jobs[n]) ==> jobs[n].k != k;
      if n != i && jobs[n].DowngradeReady? {
        assert SeenBefore(jobs[n].seen, paid);
      }
    }
  }

  lemma TimePasses(jobs: seq<Job>, payments: seq<Payment>, now: int, later: int)
    requires JobsInv(jobs, payments, now) && now <= later
    ensures JobsInv(jobs, payments, later)
  {
    forall i | 0 <= i < |jobs|
      ensures JobInv(jobs[i], payments, later)
    {
      assert JobInv(jobs[i], payments, now);
    }
  }

  lemma JobStepKeeps(s: State, e: Event)
    requires ExtensionsInv(s)
    requires JobEvent(e)
    requires OnJob(s, e).Some?
    ensures ExtensionsInv(OnJob(s, e).value)
  {
    var t, i := OnJob(s, e).value, e.i;
    assert JobInv(s.jobs[i], s.payments, s.now);
    if e.ExtendRecord? {
      EndRecorded(s.jobs, s.payments, s.now, i, s.jobs[i].until);
    } else {
      JobMoves(s.jobs, s.payments, s.now, i, t.jobs[i]);
      assert t.jobs == s.jobs[i := t.jobs[i]];
    }
  }

  lemma StepKeeps(s: State, e: Event)
    requires ExtensionsInv(s) && Step(s, e).Some?
    ensures ExtensionsInv(Step(s, e).value)
  {
    match e
    case Tick(now) => TimePasses(s.jobs, s.payments, s.now, now);
    case WebhookActive(origin, sub, plan, end, metadata) =>
      if metadata.Some? {
        OneMoreJob(s.jobs, s.payments, s.now, FallbackPending(origin, metadata.value, sub, plan, end));
      }
    case DowngradeBegin(origin, account, sub) =>
      OneMoreJob(s.jobs, s.payments, s.now, DowngradePending(origin, account, sub, s.now));
    case PaymentPaid(account, bought) =>
      var p := Payment(account, bought, None, true);
      PaymentAdded(s.jobs, s.payments, s.now, p);
      forall i | 0 <= i < |s.jobs| && Extends(s.jobs[i])
        ensures s.jobs[i].k != |s.payments|
      {
        assert JobInv(s.jobs[i], s.payments, s.now);
      }
      OneMoreJob(s.jobs, s.payments + [p], s.now, ExtendPending(|s.payments|));
    case Delivered(_) =>
    case Marked(_) =>
    case Ignored(_) =>
    case SyncActive(_, _, _, _) =>
    case ClearPointer(_, _, _) =>
    case Subscribe(_, _) =>
    case _ => JobStepKeeps(s, e);
  }

  lemma {:induction false} RunKeeps(s: State, events: seq<Event>)
    requires Init(s) && Run(s, events).Some?
    ensures ExtensionsInv(Run(s, events).value)
  {
    if |events| > 0 {
      var before := events[..|events| - 1];
      RunKeeps(s, before);
      StepKeeps(Run(s, before).value, events[|events| - 1]);
    }
  }

  // ---- Which steps lower an expiry ----

  /** A downgrade's write on the account that still tracks the ended subscription. */
  predicate IsDowngrade(u: State, e: Event, t: State, account: nat) {
    && e.DowngradeWrite? && e.i < |u.jobs| && u.jobs[e.i].DowngradeReady?
    && var j := u.jobs[e.i];
    && j.account == account
    && account in u.accounts && u.accounts[account].sub == Some(j.sub)
    && j.at <= u.now
    && SeenBefore(j.seen, u.payments)
    && account in t.accounts
    && t.accounts[account] == Account(BestPlan(j.seen, account, j.at), Some(LastEnd(j.seen, account, j.at)), None)
  }

  /** A prepayment's write whose account, changed since it was read, has come to reach beyond what it writes. */
  predicate IsOvertaken(u: State, e: Event, t: State, account: nat) {
    && e.ExtendWrite? && e.i < |u.jobs| && u.jobs[e.i].ExtendReady?
    && var j := u.jobs[e.i];
    && j.account == account
    && account in u.accounts && u.accounts[account].expires != j.seenExpires
    && u.accounts[account].expires.Some? && u.accounts[account].expires.value > j.until
    && account in t.accounts && t.accounts[account].expires == Some(j.until)
    && (j.seenExpires.Some? ==> j.seenExpires.value <= j.until)
  }

  lemma JobStepLowers(u: State, e: Event, account: nat)
    requires ExtensionsInv(u) && account in u.accounts
    requires JobEvent(e)
    requires OnJob(u, e).Some?
    ensures var t := OnJob(u, e).value;
            account in t.accounts
            && (Lowered(u.accounts[account].expires, t.accounts[account].expires) ==>
                  IsDowngrade(u, e, t, account) || IsOvertaken(u, e, t, account))
            && (IsOvertaken(u, e, t, account) ==> Lowered(u.accounts[account].expires, t.accounts[account].expires))
  {
    assert JobInv(u.jobs[e.i], u.payments, u.now);
  }

  lemma LoweringStep(u: State, e: Event, account: nat)
    requires ExtensionsInv(u) && account in u.accounts && Step(u, e).Some?
    ensures var t := Step(u, e).value;
            account in t.accounts
            && (Lowered(u.accounts[account].expires, t.accounts[account].expires) ==>
                  IsDowngrade(u, e, t, account) || IsOvertaken(u, e, t, account))
            && (IsOvertaken(u, e, t, account) ==> Lowered(u.accounts[account].expires, t.accounts[account].expires))
  {
    if JobEvent(e) {
      JobStepLowers(u, e, account);
    }
  }

  lemma {:induction false} AccountsStay(s: State, events: seq<Event>)
    requires Run(s, events).Some?
    ensures Run(s, events).value.accounts.Keys == s.accounts.Keys
  {
    if |events| > 0 {
      var before, e := events[..|events| - 1], events[|events| - 1];
      AccountsStay(s, before);
      StepKeepsAccounts(Run(s, before).value, e);
    }
  }

  lemma StepKeepsAccounts(u: State, e: Event)
    requires Step(u, e).Some?
    ensures Step(u, e).value.accounts.Keys == u.accounts.Keys
  {
  }

  /**
   * Over all runs, webhook and sync steps lower an expiry only by a downgrade's write, on the account
   * that still tracks the ended subscription; it is then the later of a past moment and the last prepaid
   * end live at that moment, among the payments recorded when the downgrade read them. A
   * prepayment's write lowers one exactly when the account, overtaken since it was read, reaches beyond
   * what it writes.
   */
  lemma OnlyDowngradesLower(s: State, events: seq<Event>, e: Event, account: nat)
    requires Init(s) && account in s.accounts
    requires Run(s, events).Some? && Step(Run(s, events).value, e).Some?
    ensures var u := Run(s, events).value;
            var t := Step(u, e).value;
            && account in u.accounts && account in t.accounts
            && var lowered := Lowered(u.accounts[account].expires, t.accounts[account].expires);
            if e.ExtendWrite? then lowered <==> IsOvertaken(u, e, t, account)
            else lowered ==> IsDowngrade(u, e, t, account)
  {
    RunKeeps(s, events);
    AccountsStay(s, events);
    LoweringStep(Run(s, events).value, e, account);
  }

  // ---- The fallback ----

  /** A fallback about to write found its subscription running, and no other active one tracked. */
  predicate FallbackInv(j: Job, running: set<nat>, idle: set<nat>) {
    j.FallbackReady? ==>
      j.sub in running && (j.seenSub.None? || j.seenSub.value == j.sub || j.seenSub.value in idle)
  }

  predicate FallbacksInv(s: State) {
    forall i :: 0 <= i < |s.jobs| ==> FallbackInv(s.jobs[i], s.running, s.idle)
  }

  lemma StepKeepsFallbacks(s: State, e: Event)
    requires FallbacksInv(s) && Step(s, e).Some?
    ensures FallbacksInv(Step(s, e).value)
  {
  }

  lemma {:induction false} RunKeepsFallbacks(s: State, events: seq<Event>)
    requires Init(s) && Run(s, events).Some?
    ensures FallbacksInv(Run(s, events).value)
  {
    if |events| > 0 {
      var before := events[..|events| - 1];
      RunKeepsFallbacks(s, before);
      StepKeepsFallbacks(Run(s, before).value, events[|events| - 1]);
    }
  }

  /**
   * The fallback never takes an account from a subscription that Stripe still reports active: when its
   * write changes an account, it was untracked, tracked by this subscription, or tracked by one found
   * inactive; this subscription was found running; and the expiry does not go back.
   */
  lemma FallbackTakesOnlyIdleAccounts(s: State, events: seq<Event>, i: nat)
    requires Init(s) && Run(s, events).Some?
    requires var u := Run(s, events).value; i < |u.jobs| && u.jobs[i].FallbackReady?
    ensures var u := Run(s, events).value;
            var j := u.jobs[i];
            var t := OnFallbackWrite(u, i);
            t.accounts != u.accounts ==>
              && j.account in u.accounts && j.account in t.accounts && j.sub in u.running
              && var was := u.accounts[j.account];
              && (was.sub.None? || was.sub.value == j.sub || was.sub.value in u.idle)
              && t.accounts[j.account] == Account(j.plan, Some(j.end), Some(j.sub))
              && !Lowered(was.expires, Some(j.end))
              && (forall a :: a in u.accounts && a != j.account ==> a in t.accounts && t.accounts[a] == u.accounts[a])
  {
    RunKeepsFallbacks(s, events);
  }

  // ---- Event marks ----

  /** The step that begins, or is, the handling of a webhook event. */
  predicate Handles(e: Event, id: nat) {
    (e.Ignored? || e.WebhookActive? || e.DowngradeBegin? || e.ClearPointer?) && e.origin == Some(id)
  }

  predicate Handled(events: seq<Event>, id: nat) {
    exists i :: 0 <= i < |events| && Handles(events[i], id)
  }

  predicate MarksInv(s: State, events: seq<Event>) {
    && (forall id :: id in s.processed ==> id in s.applied)
    && (forall id :: id in s.applied ==> Handled(events, id))
    && (forall i :: 0 <= i < |s.jobs| ==> JobHandled(s.jobs[i], events))
  }

  predicate JobHandled(j: Job, events: seq<Event>) {
    (j.FallbackPending? || j.FallbackReady? || j.DowngradePending? || j.DowngradeReady?) && j.origin.Some? ==>
      Handled(events, j.origin.value)
  }

  lemma HandledGrows(events: seq<Event>, e: Event, id: nat)
    requires Handled(events, id)
    ensures Handled(events + [e], id)
  {
    var i :| 0 <= i < |events| && Handles(events[i], id);
    assert Handles((events + [e])[i], id);
  }

  lemma HandledNow(events: seq<Event>, e: Event, id: nat)
    requires Handles(e, id)
    ensures Handled(events + [e], id)
  {
    assert Handles((events + [e])[|events|], id);
  }

  /** The old facts, for the longer run. */
  lemma MarksGrow(s: State, events: seq<Event>, e: Event)
    requires MarksInv(s, events)
    ensures MarksInv(s, events + [e])
  {
    forall id | Handled(events, id)
      ensures Handled(events + [e], id)
    {
      HandledGrows(events, e, id);
    }
  }

  lemma StepKeepsMarks(s: State, events: seq<Event>, e: Event)
    requires MarksInv(s, events) && Step(s, e).Some?
    ensures MarksInv(Step(s, e).value, events + [e])
  {
    MarksGrow(s, events, e);
    forall id | Handles(e, id)
      ensures Handled(events + [e], id)
    {
      HandledNow(events, e, id);
    }
    StepMarks(s, events + [e], e);
  }

  lemma StepMarks(s: State, events: seq<Event>, e: Event)
    requires MarksInv(s, events) && Step(s, e).Some?
    requires forall id :: Handles(e, id) ==> Handled(events, id)
    ensures MarksInv(Step(s, e).value, events)
  {
    if JobEvent(e) {
      JobStepMarks(s, events, e);
    } else if (e.Ignored? || e.WebhookActive? || e.DowngradeBegin? || e.ClearPointer?) && e.origin.Some? {
      assert Handles(e, e.origin.value);
    }
  }

  lemma JobStepMarks(s: State, events: seq<Event>, e: Event)
    requires MarksInv(s, events)
    requires JobEvent(e)
    requires OnJob(s, e).Some?
    ensures MarksInv(OnJob(s, e).value, events)
  {
    assert JobHandled(s.jobs[e.i], events);
  }

  lemma {:induction false} RunKeepsMarks(s: State, events: seq<Event>)
    requires Init(s) && Run(s, events).Some?
    ensures MarksInv(Run(s, events).value, events)
  {
    if |events| > 0 {
      var before, e := events[..|events| - 1], events[|events| - 1];
      RunKeepsMarks(s, before);
      StepKeepsMarks(Run(s, before).value, before, e);
      assert before + [e] == events;
    }
  }

  /** All deliveries of one event are the same active update. */
  predicate AlwaysActive(events: seq<Event>, id: nat, sub: nat, end: int) {
    forall i :: 0 <= i < |events| && Handles(events[i], id) ==>
      events[i].WebhookActive? && events[i].sub == sub && events[i].end == end
  }

  /**
   * A mark never loses a paid period: once an event that reports a period end is marked, the expiry of
   * the account that tracks its subscription reaches that end, however often deliveries were repeated,
   * overtaken by others, or lost their mark.
   */
  lemma MarkedEventsCount(s: State, events: seq<Event>, account: nat, sub: nat, id: nat, end: int)
    requires Init(s) && StillTracks(s.accounts, account, sub) && AllSpare(events, account, sub) && Run(s, events).Some?
    requires id in Run(s, events).value.processed && AlwaysActive(events, id, sub, end)
    ensures var t := Run(s, events).value;
            account in t.accounts && t.accounts[account].expires.Some? && t.accounts[account].expires.value >= end
  {
    RunKeepsMarks(s, events);
    var i :| 0 <= i < |events| && Handles(events[i], id);
    assert end in Carried(events[i], account, sub);
    EndIsCarried(events, account, sub, end);
    FinalExpiryIsLatest(s, events, account, sub);
  }

  // ---- Prepayments recorded during a downgrade ----

  predicate CoversAll(payments: seq<Payment>, account: nat, at: int, expires: int) {
    forall k :: 0 <= k < |payments| && Live(payments[k], account, at) ==> payments[k].until.value <= expires
  }

  /** The payment, or its end, was recorded after `seen` was read. */
  predicate RecordedSince(seen: seq<Payment>, payments: seq<Payment>, k: nat)
    requires k < |payments|
  {
    k >= |seen| || payments[k] != seen[k]
  }

  predicate NewOnesCovered(seen: seq<Payment>, payments: seq<Payment>, account: nat, at: int, expires: int) {
    forall k :: 0 <= k < |payments| && RecordedSince(seen, payments, k) && Live(payments[k], account, at)
      ==> payments[k].until.value <= expires
  }

  /**
   * A downgrade's write keeps every live prepayment covered exactly when those recorded after it read
   * the payments do not reach beyond what it computed; in particular when there are none.
   */
  lemma DowngradeKeepsPrepaid(s: State, events: seq<Event>, i: nat)
    requires Init(s) && Run(s, events).Some?
    requires var u := Run(s, events).value;
             i < |u.jobs| && u.jobs[i].DowngradeReady? && StillTracks(u.accounts, u.jobs[i].account, u.jobs[i].sub)
    ensures var u := Run(s, events).value;
            var j := u.jobs[i];
            var t := OnDowngradeWrite(u, i);
            && j.account in t.accounts && t.accounts[j.account].expires.Some?
            && (CoversAll(u.payments, j.account, j.at, t.accounts[j.account].expires.value) <==>
                  NewOnesCovered(j.seen, u.payments, j.account, j.at, LastEnd(j.seen, j.account, j.at)))
  {
    RunKeeps(s, events);
    var u := Run(s, events).value;
    var j := u.jobs[i];
    assert JobInv(j, u.payments, u.now);
    LastEndIsLeast(j.seen, j.account, j.at);
    forall k | 0 <= k < |u.payments| && !RecordedSince(j.seen, u.payments, k)
      ensures u.payments[k] in j.seen
    {
    }
  }

  // ---- The races that lose paid time ----

  /** One account, and nothing marked. */
  function Alone(row: Account, payments: seq<Payment>, jobs: seq<Job>): State {
    State(map[0 := row], payments, 0, jobs, {}, {}, {}, {}, {})
  }

  function BoughtPlan(row: Account): Plan {
    var current := EffectivePlan(row.plan, row.expires, 0);
    if Rank(current) > Rank(Standard) then current else Standard
  }

  /** A prepayment of account 0 that nothing disturbs, after the first `n` of its four statements. */
  function PaymentStage(row: Account, jobs: seq<Job>, length: nat, n: nat): State
    requires n <= 4
  {
    var until := ExtendPaidPeriod(row.expires, 0, length);
    var bought, applied := Payment(0, "standard", None, true), Account(BoughtPlan(row), Some(until), row.sub);
    if n == 0 then Alone(row, [], jobs)
    else if n == 1 then Alone(row, [bought], jobs + [ExtendPending(0)])
    else if n == 2 then Alone(row, [bought], jobs + [ExtendReady(0, 0, BoughtPlan(row), row.expires, until)])
    else if n == 3 then Alone(applied, [bought], jobs + [ExtendWritten(0, until)])
    else Alone(applied, [bought.(until := Some(until))], jobs + [Finished])
  }

  function PaymentEvent(jobs: seq<Job>, length: nat, n: nat): Event
    requires n < 4
  {
    if n == 0 then PaymentPaid(0, "standard")
    else if n == 1 then ExtendRead(|jobs|, 0, length)
    else if n == 2 then ExtendWrite(|jobs|)
    else ExtendRecord(|jobs|)
  }

  lemma LastReplaced<T>(all: seq<T>, x: T, y: T)
    ensures (all + [x])[|all| := y] == all + [y]
  {
  }

  lemma PaymentPaidStage(row: Account, jobs: seq<Job>, length: nat)
    ensures Step(PaymentStage(row, jobs, length, 0), PaymentEvent(jobs, length, 0))
            == Some(PaymentStage(row, jobs, length, 1))
  {
    assert [] + [Payment(0, "standard", None, true)] == [Payment(0, "standard", None, true)];
  }

  lemma ExtendReadStage(row: Account, jobs: seq<Job>, length: nat)
    ensures Step(PaymentStage(row, jobs, length, 1), PaymentEvent(jobs, length, 1))
            == Some(PaymentStage(row, jobs, length, 2))
  {
    var until := ExtendPaidPeriod(row.expires, 0, length);
    LastReplaced(jobs, ExtendPending(0), ExtendReady(0, 0, BoughtPlan(row), row.expires, until));
  }

  lemma ExtendWriteStage(row: Account, jobs: seq<Job>, length: nat)
    ensures Step(PaymentStage(row, jobs, length, 2), PaymentEvent(jobs, length, 2))
            == Some(PaymentStage(row, jobs, length, 3))
  {
    var until := ExtendPaidPeriod(row.expires, 0, length);
    var applied := Account(BoughtPlan(row), Some(until), row.sub);
    LastReplaced(jobs, ExtendReady(0, 0, BoughtPlan(row), row.expires, until), ExtendWritten(0, until));
    assert map[0 := row][0 := applied] == map[0 := applied];
  }

  lemma ExtendRecordStage(row: Account, jobs: seq<Job>, length: nat)
    ensures Step(PaymentStage(row, jobs, length, 3), PaymentEvent(jobs, length, 3))
            == Some(PaymentStage(row, jobs, length, 4))
  {
    var until := ExtendPaidPeriod(row.expires, 0, length);
    var bought := Payment(0, "standard", None, true);
    LastReplaced(jobs, ExtendWritten(0, until), Finished);
    assert [bought][0 := bought.(until := Some(until))] == [bought.(until := Some(until))];
  }

  lemma {:induction false} PaymentRun(s: State, events: seq<Event>, row: Account, jobs: seq<Job>, length: nat, n: nat)
    returns (all: seq<Event>)
    requires n <= 4 && Run(s, events) == Some(Alone(row, [], jobs))
    ensures Run(s, all) == Some(PaymentStage(row, jobs, length, n))
  {
    if n == 0 {
      all := events;
    } else {
      all := PaymentRun(s, events, row, jobs, length, n - 1);
      PaymentStep(row, jobs, length, n - 1);
      RunSnoc(s, all, PaymentStage(row, jobs, length, n - 1), PaymentEvent(jobs, length, n - 1));
      all := all + [PaymentEvent(jobs, length, n - 1)];
    }
  }

  lemma PaymentStep(row: Account, jobs: seq<Job>, length: nat, n: nat)
    requires n < 4
    ensures Step(PaymentStage(row, jobs, length, n), PaymentEvent(jobs, length, n))
            == Some(PaymentStage(row, jobs, length, n + 1))
  {
    match n
    case 0 => PaymentPaidStage(row, jobs, length);
    case 1 => ExtendReadStage(row, jobs, length);
    case 2 => ExtendWriteStage(row, jobs, length);
    case 3 => ExtendRecordStage(row, jobs, length);
  }

  /** A downgrade of account 0 that has read the payments when there were none. */
  lemma DowngradeWaits(row: Account) returns (events: seq<Event>, waiting: Job)
    ensures waiting == DowngradeReady(None, 0, 7, 0, [], Free, 0)
    ensures Run(Alone(row, [], []), events) == Some(Alone(row, [], [waiting]))
  {
    waiting := DowngradeReady(None, 0, 7, 0, [], Free, 0);
    var s, pending := Alone(row, [], []), DowngradePending(None, 0, 7, 0);
    LastReplaced([], pending, waiting);
    assert [] + [pending] == [pending] && [] + [waiting] == [waiting];
    RunSnoc(s, [], s, DowngradeBegin(None, 0, 7));
    events := [] + [DowngradeBegin(None, 0, 7)];
    RunSnoc(s, events, Alone(row, [], [pending]), DowngradeRead(0));
    events := events + [DowngradeRead(0)];
  }

  /**
   * A payment can be lost to a downgrade: paid, applied and recorded between the downgrade's read and its
   * write, it ends later than the expiry the write leaves.
   */
  lemma RaceLosesPrepaid() returns (s: State, events: seq<Event>, p: Payment)
    ensures Init(s) && Run(s, events).Some?
    ensures var t := Run(s, events).value;
            && p in t.payments && Live(p, 0, t.now)
            && 0 in t.accounts && t.accounts[0].expires.Some? && t.accounts[0].expires.value < p.until.value
  {
    var row := Account(Premium, Some(40), Some(7));
    s := Alone(row, [], []);
    var waiting;
    events, waiting := DowngradeWaits(row);
    events := PaymentRun(s, events, row, [waiting], 10, 4);
    var d := PaymentStage(row, [waiting], 10, 4);
    p := d.payments[0];
    RunSnoc(s, events, d, DowngradeWrite(0));
    events := events + [DowngradeWrite(0)];
  }

  /** A card renewal that arrives between a prepayment's read and its write is overwritten with an earlier expiry. */
  lemma ExtensionLosesRenewal() returns (s: State, events: seq<Event>, e: Event)
    ensures Init(s) && Run(s, events).Some? && Step(Run(s, events).value, e).Some? && e.ExtendWrite?
    ensures var u := Run(s, events).value;
            var t := Step(u, e).value;
            0 in u.accounts && 0 in t.accounts && Lowered(u.accounts[0].expires, t.accounts[0].expires)
  {
    var row := Account(Standard, Some(10), Some(7));
    s := Alone(row, [], []);
    events := PaymentRun(s, [], row, [], 5, 2);
    RunSnoc(s, events, PaymentStage(row, [], 5, 2), SyncActive(0, 7, Standard, 100));
    events, e := events + [SyncActive(0, 7, Standard, 100)], ExtendWrite(0);
  }
}
