/** What each request on a subscription achieves when nothing comes between its statements. */
module SubscriptionProgress {
  import opened Bytes
  import opened Subscription
  import opened SubscriptionRuns

  lemma RunTwo(s: State, e: Event, a: State, e': Event, t: State)
    requires Step(s, e) == Some(a) && Step(a, e') == Some(t)
    ensures Run(s, [e, e']) == Some(t)
  {
    assert [e, e'][..1] == [e] && [e][..0] == [];
    assert Run(s, [e]) == Some(a);
  }

  lemma RunThree(s: State, e: Event, a: State, e': Event, b: State, e'': Event, t: State)
    requires Step(s, e) == Some(a) && Step(a, e') == Some(b) && Step(b, e'') == Some(t)
    ensures Run(s, [e, e', e'']) == Some(t)
  {
    RunTwo(s, e, a, e', b);
    assert [e, e', e''][..2] == [e, e'];
  }

  // ---- The updates that need one statement ----

  /**
   * A webhook's active update gives everybody who tracks the subscription its plan and end; when nobody
   * does, the account that the metadata names is looked at next.
   */
  lemma WebhookUpdates(s: State, origin: Option<nat>, sub: nat, plan: Plan, end: int, metadata: Option<nat>)
    requires Admits(s, origin)
    ensures Step(s, WebhookActive(origin, sub, plan, end, metadata)).Some?
    ensures var t := Step(s, WebhookActive(origin, sub, plan, end, metadata)).value;
            && RaisedFor(s.accounts, t.accounts, Holders(s.accounts, sub), plan, end)
            && if metadata.Some? && (forall a :: a in s.accounts ==> s.accounts[a].sub != Some(sub)) then
                 t.jobs == s.jobs + [FallbackPending(origin, metadata.value, sub, plan, end)]
                 && t.applied == s.applied
               else
                 t.jobs == s.jobs && t.applied == s.applied + if origin.Some? then {origin.value} else {}
  {
    var who := Holders(s.accounts, sub);
    if who == {} {
      forall a | a in s.accounts
        ensures s.accounts[a].sub != Some(sub)
      {
        assert a !in who;
      }
    }
    if origin.None? {
      assert s.applied + {} == s.applied;
    }
  }

  /** Subscribing moves one pointer; clearing removes the pointers of those named that point to the subscription. */
  lemma PointersMove(s: State, account: nat, sub: nat, origin: Option<nat>, who: set<nat>)
    ensures Step(s, Subscribe(account, sub)).Some?
    ensures Step(s, Subscribe(account, sub)).value.accounts
            == if account in s.accounts then
                 s.accounts[account := Account(s.accounts[account].plan, s.accounts[account].expires, Some(sub))]
               else s.accounts
    ensures Admits(s, origin) ==>
              && Step(s, ClearPointer(origin, who, sub)).Some?
              && var after := Step(s, ClearPointer(origin, who, sub)).value.accounts;
              && after.Keys == s.accounts.Keys
              && forall a :: a in s.accounts ==>
                   && after[a].plan == s.accounts[a].plan && after[a].expires == s.accounts[a].expires
                   && after[a].sub == if a in who && s.accounts[a].sub == Some(sub) then None else s.accounts[a].sub
  {
  }

  /** A delivery is handled exactly when its event is not marked, and only an event handled to the end is marked. */
  lemma DeliveriesAreChecked(s: State, id: nat)
    ensures Step(s, Delivered(id)).Some?
    ensures var t := Step(s, Delivered(id)).value;
            t == s.(admitted := t.admitted)
            && (id in s.processed ==> t == s) && (id !in s.processed ==> Admits(t, Some(id)))
            && forall other :: other != id ==> (Admits(t, Some(other)) <==> Admits(s, Some(other)))
    ensures Step(s, Marked(id)).Some? <==> id in s.applied
    ensures id in s.applied ==> Step(s, Marked(id)) == Some(s.(processed := s.processed + {id}))
  {
  }

  // ---- The fallback ----

  /** Nothing else is tracked, or Stripe says it is not active; and the expiry does not go back. */
  predicate MayTake(row: Account, sub: nat, end: int, conflict: bool) {
    && (row.sub.None? || row.sub == Some(sub) || !conflict)
    && (row.expires.None? || row.expires.value <= end)
  }

  /**
   * The fallback attaches the account to the subscription exactly when it has not ended, the account may
   * be taken, and it exists; otherwise it changes no account. Other accounts are never touched.
   */
  lemma FallbackAttachesIff(s: State, i: nat, ended: bool, conflict: bool)
    requires i < |s.jobs| && s.jobs[i].FallbackPending?
    ensures var j := s.jobs[i];
            if !ended && j.account in s.accounts && MayTake(s.accounts[j.account], j.sub, j.end, conflict) then
              && Run(s, [FallbackRead(i, ended, conflict), FallbackWrite(i)]).Some?
              && Run(s, [FallbackRead(i, ended, conflict), FallbackWrite(i)]).value.accounts
                 == s.accounts[j.account := Account(j.plan, Some(j.end), Some(j.sub))]
            else
              && Step(s, FallbackRead(i, ended, conflict)).Some?
              && Step(s, FallbackRead(i, ended, conflict)).value.accounts == s.accounts
              && Step(s, FallbackRead(i, ended, conflict)).value.jobs == s.jobs[i := Finished]
  {
    var j, read := s.jobs[i], FallbackRead(i, ended, conflict);
    if !ended && j.account in s.accounts && MayTake(s.accounts[j.account], j.sub, j.end, conflict) {
      var a := Step(s, read).value;
      RunTwo(s, read, a, FallbackWrite(i), Step(a, FallbackWrite(i)).value);
    }
  }

  // ---- The downgrade ----

  /** A downgrade leaves the account, if it still tracks the subscription, what it has prepaid itself. */
  lemma DowngradeFallsBack(s: State, i: nat)
    requires i < |s.jobs| && s.jobs[i].DowngradePending?
    ensures Run(s, [DowngradeRead(i), DowngradeWrite(i)]).Some?
    ensures var j, t := s.jobs[i], Run(s, [DowngradeRead(i), DowngradeWrite(i)]).value;
            t.accounts == if j.account in s.accounts && s.accounts[j.account].sub == Some(j.sub) then
                            s.accounts[j.account := Account(BestPlan(s.payments, j.account, j.at),
                                                            Some(LastEnd(s.payments, j.account, j.at)), None)]
                          else s.accounts
  {
    var a := Step(s, DowngradeRead(i)).value;
    RunTwo(s, DowngradeRead(i), a, DowngradeWrite(i), Step(a, DowngradeWrite(i)).value);
  }

  // ---- The prepayment ----

  /** What a prepayment of `length` leaves an account: never a lower plan that still runs, and time added at the end. */
  predicate IsExtended(before: Account, after: Account, bought: Plan, now: int, length: nat) {
    && after.sub == before.sub
    && after.expires.Some?
    && after.expires.value - length >= now && !Lowered(before.expires, Some(after.expires.value - length))
    && (after.expires.value - length == now || before.expires == Some(after.expires.value - length))
    && Rank(after.plan) >= Rank(bought)
    && (before.expires.Some? && before.expires.value > now ==> Rank(after.plan) >= Rank(before.plan))
    && (after.plan == bought || (after.plan == before.plan && before.expires.Some? && before.expires.value > now))
  }

  /** The plan and expiry that the read decides on. */
  lemma ReadDecides(s: State, i: nat, account: nat, length: nat) returns (a: State, j: Job)
    requires i < |s.jobs| && s.jobs[i].ExtendPending? && s.jobs[i].k < |s.payments|
    requires s.payments[s.jobs[i].k].account == account && account in s.accounts
    ensures Step(s, ExtendRead(i, account, length)) == Some(a) && a == s.(jobs := s.jobs[i := j])
    ensures j.ExtendReady? && j.k == s.jobs[i].k && j.account == account
    ensures IsExtended(s.accounts[account], Account(j.plan, Some(j.until), s.accounts[account].sub),
                       NormalizeStoredPlan(s.payments[j.k].plan), s.now, length)
  {
    a := Step(s, ExtendRead(i, account, length)).value;
    j := a.jobs[i];
  }

  lemma WriteAndRecord(a: State, i: nat, j: Job) returns (b: State, t: State)
    requires i < |a.jobs| && a.jobs[i] == j && j.ExtendReady? && j.account in a.accounts && j.k < |a.payments|
    ensures Step(a, ExtendWrite(i)) == Some(b) && Step(b, ExtendRecord(i)) == Some(t)
    ensures t.accounts == a.accounts[j.account := Account(j.plan, Some(j.until), a.accounts[j.account].sub)]
    ensures t.payments == a.payments[j.k := a.payments[j.k].(until := Some(j.until))]
  {
    b := Step(a, ExtendWrite(i)).value;
    t := Step(b, ExtendRecord(i)).value;
  }

  /**
   * A paid prepayment adds its length to the later of now and the account's expiry, keeps the higher of
   * the plan bought and the one still running, and records the end it bought; nobody else is touched.
   */
  lemma PrepaymentExtends(s: State, i: nat, account: nat, length: nat)
    requires i < |s.jobs| && s.jobs[i].ExtendPending? && s.jobs[i].k < |s.payments|
    requires s.payments[s.jobs[i].k].account == account && account in s.accounts
    ensures Run(s, [ExtendRead(i, account, length), ExtendWrite(i), ExtendRecord(i)]).Some?
    ensures var t, k := Run(s, [ExtendRead(i, account, length), ExtendWrite(i), ExtendRecord(i)]).value, s.jobs[i].k;
            && account in t.accounts
            && t.accounts == s.accounts[account := t.accounts[account]]
            && IsExtended(s.accounts[account], t.accounts[account],
                          NormalizeStoredPlan(s.payments[k].plan), s.now, length)
            && t.payments == s.payments[k := s.payments[k].(until := t.accounts[account].expires)]
  {
    var a, j := ReadDecides(s, i, account, length);
    var b, t := WriteAndRecord(a, i, j);
    RunThree(s, ExtendRead(i, account, length), a, ExtendWrite(i), b, ExtendRecord(i), t);
  }
}
