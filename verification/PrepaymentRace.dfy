/**
 * When a Bitcoin prepayment loses paid time: it overwrites the expiry with one computed from an earlier
 * read, and nothing checks that the account has not come to reach further meanwhile.
 */
module PrepaymentRace {
  import opened Bytes
  import opened Subscription
  import opened SubscriptionRuns

  /** Every waiting request but the `i`th spares the account. */
  predicate OthersSpare(jobs: seq<Job>, i: nat, account: nat, sub: nat) {
    forall k :: 0 <= k < |jobs| && k != i ==> JobSpares(jobs[k], account, sub)
  }

  /** Request `i` has read the account, which tracks `sub`, and is about to write `until`. */
  predicate AboutToWrite(s: State, i: nat, account: nat, sub: nat, until: int) {
    && i < |s.jobs| && s.jobs[i].ExtendReady? && s.jobs[i].account == account && s.jobs[i].until == until
    && StillTracks(s.accounts, account, sub)
    && OthersSpare(s.jobs, i, account, sub)
  }

  predicate NoWrite(events: seq<Event>, i: nat) {
    forall k :: 0 <= k < |events| ==> events[k] != ExtendWrite(i)
  }

  lemma OtherJobMoves(s: State, e: Event, i: nat, account: nat, sub: nat, until: int)
    requires AboutToWrite(s, i, account, sub, until) && Spares(e, account, sub) && e != ExtendWrite(i)
    requires JobEvent(e)
    requires OnJob(s, e).Some?
    ensures var t := OnJob(s, e).value;
            AboutToWrite(t, i, account, sub, until) && t.accounts[account] == s.accounts[account]
  {
    assert e.i != i;
    assert JobSpares(s.jobs[e.i], account, sub);
  }

  lemma WaitingStep(s: State, e: Event, i: nat, account: nat, sub: nat, until: int)
    requires AboutToWrite(s, i, account, sub, until) && Spares(e, account, sub) && e != ExtendWrite(i)
    requires Step(s, e).Some?
    ensures var t := Step(s, e).value;
            && AboutToWrite(t, i, account, sub, until)
            && IsLatest(t.accounts[account].expires, s.accounts[account].expires, Carried(e, account, sub))
  {
    if JobEvent(e) {
      OtherJobMoves(s, e, i, account, sub, until);
    } else if e.WebhookActive? && e.sub == sub {
      assert account in Holders(s.accounts, sub);
      LaterIsLatest(s.accounts[account].expires, e.end);
    } else if e.SyncActive? && e.account == account && e.sub == sub {
      LaterIsLatest(s.accounts[account].expires, e.end);
    }
  }

  lemma {:induction false} WaitingRun(s: State, events: seq<Event>, i: nat, account: nat, sub: nat, until: int)
    requires AboutToWrite(s, i, account, sub, until) && AllSpare(events, account, sub) && NoWrite(events, i)
    requires Run(s, events).Some?
    ensures var u := Run(s, events).value;
            && AboutToWrite(u, i, account, sub, until)
            && IsLatest(u.accounts[account].expires, s.accounts[account].expires, EventEnds(events, account, sub))
  {
    if |events| > 0 {
      var before, e := events[..|events| - 1], events[|events| - 1];
      WaitingRun(s, before, i, account, sub, until);
      var u := Run(s, before).value;
      WaitingStep(u, e, i, account, sub, until);
      var t := Step(u, e).value;
      LatestComposes(s.accounts[account].expires, u.accounts[account].expires, t.accounts[account].expires,
                     EventEnds(before, account, sub), Carried(e, account, sub));
    }
  }

  predicate SomeBeyond(ends: set<int>, until: int) {
    exists end :: end in ends && end > until
  }

  lemma LatestBeyond(expires: Option<int>, start: Option<int>, ends: set<int>, until: int)
    requires IsLatest(expires, start, ends) && (start.Some? ==> start.value <= until)
    ensures Lowered(expires, Some(until)) <==> SomeBeyond(ends, until)
  {
    if Lowered(expires, Some(until)) {
      assert expires.value in ends;
    }
  }

  lemma WriteIs(u: State, i: nat, account: nat, sub: nat, until: int)
    requires AboutToWrite(u, i, account, sub, until)
    ensures Step(u, ExtendWrite(i)).Some?
    ensures var t := Step(u, ExtendWrite(i)).value;
            account in t.accounts && t.accounts[account].expires == Some(until)
  {
  }

  /**
   * A prepayment about to write, and anything that spares the account before it does: the write lowers
   * the expiry exactly when an active update that arrived meanwhile carries an end beyond what it writes.
   */
  lemma WriteLowersIff(s: State, events: seq<Event>, i: nat, account: nat, sub: nat, until: int)
    requires AboutToWrite(s, i, account, sub, until)
    requires s.accounts[account].expires.Some? ==> s.accounts[account].expires.value <= until
    requires AllSpare(events, account, sub) && NoWrite(events, i) && Run(s, events).Some?
    ensures var u := Run(s, events).value;
            && Step(u, ExtendWrite(i)).Some?
            && var t := Step(u, ExtendWrite(i)).value;
            && account in u.accounts && account in t.accounts && t.accounts[account].expires == Some(until)
            && (Lowered(u.accounts[account].expires, Some(until)) <==>
                  SomeBeyond(EventEnds(events, account, sub), until))
  {
    WaitingRun(s, events, i, account, sub, until);
    WriteIs(Run(s, events).value, i, account, sub, until);
    LatestBeyond(Run(s, events).value.accounts[account].expires, s.accounts[account].expires,
                 EventEnds(events, account, sub), until);
  }

  lemma ReadLeavesWaiting(s: State, i: nat, account: nat, sub: nat, length: nat)
    requires i < |s.jobs| && StillTracks(s.accounts, account, sub) && JobsSpare(s.jobs, account, sub)
    requires Step(s, ExtendRead(i, account, length)).Some?
    ensures var t := Step(s, ExtendRead(i, account, length)).value;
            && t.accounts == s.accounts
            && AboutToWrite(t, i, account, sub, ExtendPaidPeriod(s.accounts[account].expires, s.now, length))
  {
  }

  /**
   * The whole of it, from the read on: a prepayment of an account that tracks a card subscription leaves
   * the account an expiry earlier than it found when it writes, exactly when a renewal arrived in between
   * whose period ends after the end computed from the read.
   */
  lemma PrepaymentLosesIff(s: State, i: nat, account: nat, sub: nat, length: nat, events: seq<Event>)
    requires i < |s.jobs| && StillTracks(s.accounts, account, sub) && JobsSpare(s.jobs, account, sub)
    requires Step(s, ExtendRead(i, account, length)).Some?
    requires AllSpare(events, account, sub) && NoWrite(events, i)
    requires Run(Step(s, ExtendRead(i, account, length)).value, events).Some?
    ensures var u := Run(Step(s, ExtendRead(i, account, length)).value, events).value;
            && Step(u, ExtendWrite(i)).Some?
            && var t := Step(u, ExtendWrite(i)).value;
            && account in u.accounts && account in t.accounts
            && (Lowered(u.accounts[account].expires, t.accounts[account].expires) <==>
                  SomeBeyond(EventEnds(events, account, sub),
                             ExtendPaidPeriod(s.accounts[account].expires, s.now, length)))
  {
    ReadLeavesWaiting(s, i, account, sub, length);
    WriteLowersIff(Step(s, ExtendRead(i, account, length)).value, events, i, account, sub,
                   ExtendPaidPeriod(s.accounts[account].expires, s.now, length));
  }
}
