/**
 * All runs of the security-challenge protocol: any number of requests create, read, consume, move on
 * and commit challenges, with recoveries, sweeps and the clock in between, one batch at a time.
 */
module SecurityRuns {
  import opened Bytes
  import opened SecurityStore

  const MAX_PASSKEYS := 10

  /** The four changes the account settings commit. */
  datatype Change = AddPasskey(key: nat) | DeletePasskey(key: nat) | EnableTotp(secret: nat) | DisableTotp

  function PasskeysOf(f: Factors, account: nat): set<nat> {
    set k | k in f.passkeys && f.passkeys[k] == account
  }

  predicate Eligible(change: Change, account: nat, f: Factors) {
    match change
    case AddPasskey(key) => |PasskeysOf(f, account)| < MAX_PASSKEYS && key !in f.passkeys
    case DeletePasskey(key) => key in f.passkeys && f.passkeys[key] == account
    case EnableTotp(_) => account in f.totp && f.totp[account].None?
    case DisableTotp => account in f.totp && f.totp[account].Some?
  }

  function Mutate(change: Change, account: nat, f: Factors): Factors {
    match change
    case AddPasskey(key) => f.(passkeys := f.passkeys[key := account])
    case DeletePasskey(key) =>
      if key in f.passkeys && f.passkeys[key] == account then f.(passkeys := f.passkeys - {key}) else f
    case EnableTotp(secret) =>
      if account in f.totp then f.(totp := f.totp[account := Some(secret)]) else f
    case DisableTotp => f.(totp := f.totp - {account})
  }

  datatype Entry =
    | CommittedBy(id: Id, account: nat, version: nat)
    | ConsumedBy(id: Id)
    | RecoveredAt(account: nat, version: nat)

  /** `issued` are the identifiers ever drawn, `held` the snapshots requests have read. */
  datatype State = State(db: Db, now: int, issued: set<Id>, held: set<Snapshot>, log: seq<Entry>)

  datatype Event =
    | Tick(now: int)
    | Sweep
    | Create(previous: Option<Id>, id: Id, row: Challenge)
    | Read(id: Id)
    | Consume(snap: Snapshot)
    | Transition(snap: Snapshot, purpose: nat, expires: int)
    | Commit(snap: Snapshot, change: Change, fault: bool)
    | Recover(account: nat, read: Account, recovery: nat)
    | ReserveOtpRow(account: nat)
    | DropOtpRow(account: nat)

  function OnCreate(s: State, previous: Option<Id>, id: Id, row: Challenge): Option<State> {
    if id in s.issued || row.claim.Some? || (row.account.Some? && row.account.value !in s.db.accounts) then None
    else Some(s.(db := s.db.(challenges := Replaced(Unexpired(s.db.challenges, s.now), previous, id, row)),
                 issued := s.issued + {id}))
  }

  function OnRead(s: State, id: Id): Option<State> {
    if id in s.db.challenges && s.db.challenges[id].expires > s.now && s.db.challenges[id].claim.None?
    then Some(s.(held := s.held + {Snapshot(id, s.db.challenges[id])}))
    else Some(s)
  }

  function OnConsume(s: State, snap: Snapshot): Option<State> {
    if snap !in s.held then None
    else if !MayConsume(s.db, snap, s.now) then Some(s)
    else Some(s.(db := s.db.(challenges := s.db.challenges - {snap.id}), log := s.log + [ConsumedBy(snap.id)]))
  }

  function OnTransition(s: State, snap: Snapshot, purpose: nat, expires: int): Option<State> {
    if snap !in s.held then None
    else if !MayTransition(s.db, snap, s.now) then Some(s)
    else
      var row := s.db.challenges[snap.id].(purpose := purpose, expires := expires);
      Some(s.(db := s.db.(challenges := s.db.challenges[snap.id := row])))
  }

  /** A commit that fails, at its guard or by a database error, leaves everything as it was. */
  function OnCommit(s: State, snap: Snapshot, change: Change, fault: bool): Option<State> {
    if snap !in s.held then None
    else if fault || snap.row.account.None? then Some(s)
    else
      var account := snap.row.account.value;
      if !MayCommit(s.db, snap, s.now, f => Eligible(change, account, f)) then Some(s)
      else if account !in s.db.accounts then None
      else Some(s.(db := Committed(s.db, account, [f => Mutate(change, account, f)]),
                   log := s.log + [CommittedBy(snap.id, account, s.db.accounts[account].version)]))
  }

  function OnRecover(s: State, account: nat, read: Account, recovery: nat): Option<State> {
    if !MayRecover(s.db.accounts, account, read) then Some(s)
    else Some(s.(db := Recovered(s.db, account, recovery), log := s.log + [RecoveredAt(account, read.version)]))
  }

  /** The attempt counter's row, inserted when missing and swept while it holds no secret. */
  function OnOtpRow(s: State, account: nat, insert: bool): Option<State> {
    var totp := s.db.factors.totp;
    if insert then
      if account in totp then Some(s)
      else Some(s.(db := s.db.(factors := s.db.factors.(totp := totp[account := None]))))
    else if account in totp && totp[account].None? then
      Some(s.(db := s.db.(factors := s.db.factors.(totp := totp - {account}))))
    else Some(s)
  }

  function Step(s: State, e: Event): Option<State> {
    match e
    case Tick(now) => if now >= s.now then Some(s.(now := now)) else None
    case Sweep => Some(s.(db := s.db.(challenges := Unexpired(s.db.challenges, s.now))))
    case Create(previous, id, row) => OnCreate(s, previous, id, row)
    case Read(id) => OnRead(s, id)
    case Consume(snap) => OnConsume(s, snap)
    case Transition(snap, purpose, expires) => OnTransition(s, snap, purpose, expires)
    case Commit(snap, change, fault) => OnCommit(s, snap, change, fault)
    case Recover(account, read, recovery) => OnRecover(s, account, read, recovery)
    case ReserveOtpRow(account) => OnOtpRow(s, account, true)
    case DropOtpRow(account) => OnOtpRow(s, account, false)
  }

  function Run(s: State, events: seq<Event>): Option<State> {
    if |events| == 0 then Some(s)
    else
      var before := Run(s, events[..|events| - 1]);
      if before.None? then None else Step(before.value, events[|events| - 1])
  }

  ghost predicate Init(s: State) {
    && s.db.challenges == map[]
    && s.issued == {}
    && s.held == {}
    && s.log == []
    && FewPasskeys(s.db.factors)
  }

  // ---- Invariants ----

  /** Between batches no row carries a claim, and every row's identifier was drawn once. */
  predicate RowsInv(challenges: map<Id, Challenge>, issued: set<Id>) {
    && challenges.Keys <= issued
    && forall id :: id in challenges ==> challenges[id].claim.None?
  }

  predicate OwnersExist(challenges: map<Id, Challenge>, accounts: map<nat, Account>) {
    forall id :: id in challenges && challenges[id].account.Some? ==> challenges[id].account.value in accounts
  }

  predicate HeldInv(challenges: map<Id, Challenge>, issued: set<Id>, held: set<Snapshot>) {
    forall snap :: snap in held ==> snap.id in issued && Faithful(challenges, snap)
  }

  predicate Spends(e: Entry, id: Id) {
    !e.RecoveredAt? && e.id == id
  }

  /** A spent challenge is gone for good. */
  predicate SpentInv(challenges: map<Id, Challenge>, issued: set<Id>, log: seq<Entry>) {
    forall i :: 0 <= i < |log| && !log[i].RecoveredAt? ==> log[i].id in issued && log[i].id !in challenges
  }

  predicate SpentOnce(log: seq<Entry>) {
    forall i, j :: 0 <= i < j < |log| && !log[i].RecoveredAt? ==> !Spends(log[j], log[i].id)
  }

  predicate Raises(e: Entry, account: nat) {
    !e.ConsumedBy? && e.account == account
  }

  function VersionSteps(log: seq<Entry>, account: nat): nat {
    if |log| == 0 then 0
    else VersionSteps(log[..|log| - 1], account) + if Raises(log[|log| - 1], account) then 1 else 0
  }

  /** The version is the number of committed changes and recoveries of the account. */
  predicate VersionInv(start: map<nat, Account>, accounts: map<nat, Account>, log: seq<Entry>) {
    && accounts.Keys == start.Keys
    && forall a :: a in accounts ==> accounts[a].version == start[a].version + VersionSteps(log, a)
  }

  /** Each entry names the version it raised: its number among the account's raising entries. */
  predicate NumberedFrom(start: map<nat, Account>, log: seq<Entry>) {
    forall i :: 0 <= i < |log| && !log[i].ConsumedBy? ==>
      log[i].account in start
        && log[i].version == start[log[i].account].version + VersionSteps(log[..i], log[i].account)
  }

  ghost predicate FewPasskeys(f: Factors) {
    forall a :: |PasskeysOf(f, a)| <= MAX_PASSKEYS
  }

  ghost predicate Inv(s: State, start: map<nat, Account>) {
    && RowsInv(s.db.challenges, s.issued)
    && OwnersExist(s.db.challenges, s.db.accounts)
    && HeldInv(s.db.challenges, s.issued, s.held)
    && SpentInv(s.db.challenges, s.issued, s.log)
    && SpentOnce(s.log)
    && VersionInv(start, s.db.accounts, s.log)
    && NumberedFrom(start, s.log)
    && FewPasskeys(s.db.factors)
  }

  lemma VersionStepsSnoc(log: seq<Entry>, e: Entry, account: nat)
    ensures VersionSteps(log + [e], account) == VersionSteps(log, account) + if Raises(e, account) then 1 else 0
  {
    assert (log + [e])[..|log|] == log;
  }

  /** Rows may go, and identifiers never drawn before may come: nothing held or spent is disturbed. */
  predicate OnlyRemoves(before: map<Id, Challenge>, after: map<Id, Challenge>) {
    forall id :: id in after ==> id in before && after[id] == before[id]
  }

  lemma RemovalKeeps(s: State, after: map<Id, Challenge>)
    requires RowsInv(s.db.challenges, s.issued) && HeldInv(s.db.challenges, s.issued, s.held)
    requires SpentInv(s.db.challenges, s.issued, s.log) && OwnersExist(s.db.challenges, s.db.accounts)
    requires OnlyRemoves(s.db.challenges, after)
    ensures RowsInv(after, s.issued) && HeldInv(after, s.issued, s.held)
    ensures SpentInv(after, s.issued, s.log) && OwnersExist(after, s.db.accounts)
  {
  }

  lemma CreateKeeps(s: State, start: map<nat, Account>, previous: Option<Id>, id: Id, row: Challenge)
    requires Inv(s, start) && OnCreate(s, previous, id, row).Some?
    ensures Inv(OnCreate(s, previous, id, row).value, start)
  {
    var t := OnCreate(s, previous, id, row).value;
    var unexpired := Unexpired(s.db.challenges, s.now);
    var kept := if previous.Some? then unexpired - {previous.value} else unexpired;
    RemovalKeeps(s, kept);
    assert t.db.challenges == kept[id := row];
  }

  lemma ConsumeKeeps(s: State, start: map<nat, Account>, snap: Snapshot)
    requires Inv(s, start) && OnConsume(s, snap).Some?
    ensures Inv(OnConsume(s, snap).value, start)
  {
    if MayConsume(s.db, snap, s.now) {
      var t, e := OnConsume(s, snap).value, ConsumedBy(snap.id);
      RemovalKeeps(s, t.db.challenges);
      forall a {
        VersionStepsSnoc(s.log, e, a);
      }
      PrefixesStay(start, s.log, e);
    }
  }

  /** A new last entry leaves the numbering of the earlier ones. */
  lemma PrefixesStay(start: map<nat, Account>, log: seq<Entry>, e: Entry)
    requires NumberedFrom(start, log)
    requires !e.ConsumedBy? ==>
             e.account in start && e.version == start[e.account].version + VersionSteps(log, e.account)
    ensures NumberedFrom(start, log + [e])
  {
    forall i | 0 <= i <= |log|
      ensures (log + [e])[..i] == log[..i]
    {
    }
    assert log[..|log|] == log;
  }

  lemma TransitionKeeps(s: State, start: map<nat, Account>, snap: Snapshot, purpose: nat, expires: int)
    requires Inv(s, start) && OnTransition(s, snap, purpose, expires).Some?
    ensures Inv(OnTransition(s, snap, purpose, expires).value, start)
  {
  }

  lemma MutationKeepsFew(f: Factors, change: Change, account: nat)
    requires FewPasskeys(f) && Eligible(change, account, f)
    ensures FewPasskeys(Mutate(change, account, f))
  {
    var g := Mutate(change, account, f);
    forall a
      ensures |PasskeysOf(g, a)| <= MAX_PASSKEYS
    {
      if change.AddPasskey? && a == account {
        assert PasskeysOf(g, a) == PasskeysOf(f, a) + {change.key};
      } else {
        assert PasskeysOf(g, a) <= PasskeysOf(f, a);
        SubsetSize(PasskeysOf(g, a), PasskeysOf(f, a));
      }
    }
  }

  lemma CommitKeeps(s: State, start: map<nat, Account>, snap: Snapshot, change: Change, fault: bool)
    requires Inv(s, start) && OnCommit(s, snap, change, fault).Some?
    ensures Inv(OnCommit(s, snap, change, fault).value, start)
  {
    var t := OnCommit(s, snap, change, fault).value;
    if t != s {
      var account := snap.row.account.value;
      var e := CommittedBy(snap.id, account, s.db.accounts[account].version);
      RemovalKeeps(s, t.db.challenges);
      assert Faithful(s.db.challenges, snap);
      assert snap.id !in t.db.challenges;
      CommitFactors(s, account, change);
      MutationKeepsFew(s.db.factors, change, account);
      forall a {
        VersionStepsSnoc(s.log, e, a);
      }
      PrefixesStay(start, s.log, e);
    }
  }

  lemma CommitFactors(s: State, account: nat, change: Change)
    requires account in s.db.accounts
    ensures Committed(s.db, account, [f => Mutate(change, account, f)]).factors == Mutate(change, account, s.db.factors)
  {
    var changes: seq<Factors -> Factors> := [f => Mutate(change, account, f)];
    assert changes[..0] == [];
    assert ApplyAll(changes[..0], s.db.factors) == s.db.factors;
  }

  lemma RecoverKeeps(s: State, start: map<nat, Account>, account: nat, read: Account, recovery: nat)
    requires Inv(s, start) && OnRecover(s, account, read, recovery).Some?
    ensures Inv(OnRecover(s, account, read, recovery).value, start)
  {
    var t := OnRecover(s, account, read, recovery).value;
    if MayRecover(s.db.accounts, account, read) {
      var e := RecoveredAt(account, read.version);
      RemovalKeeps(s, t.db.challenges);
      forall a {
        VersionStepsSnoc(s.log, e, a);
      }
      PrefixesStay(start, s.log, e);
      forall a
        ensures |PasskeysOf(t.db.factors, a)| <= MAX_PASSKEYS
      {
        SubsetSize(PasskeysOf(t.db.factors, a), PasskeysOf(s.db.factors, a));
      }
    }
  }

  lemma OtpRowKeeps(s: State, start: map<nat, Account>, account: nat, insert: bool)
    requires Inv(s, start)
    ensures Inv(OnOtpRow(s, account, insert).value, start)
  {
    var t := OnOtpRow(s, account, insert).value;
    forall a
      ensures PasskeysOf(t.db.factors, a) == PasskeysOf(s.db.factors, a)
    {
    }
  }

  lemma StepKeepsInv(s: State, start: map<nat, Account>, e: Event)
    requires Inv(s, start) && Step(s, e).Some?
    ensures Inv(Step(s, e).value, start)
  {
    match e
    case Tick(_) =>
    case Sweep => RemovalKeeps(s, Unexpired(s.db.challenges, s.now));
    case Create(previous, id, row) => CreateKeeps(s, start, previous, id, row);
    case Read(id) =>
    case Consume(snap) => ConsumeKeeps(s, start, snap);
    case Transition(snap, purpose, expires) => TransitionKeeps(s, start, snap, purpose, expires);
    case Commit(snap, change, fault) => CommitKeeps(s, start, snap, change, fault);
    case Recover(account, read, recovery) => RecoverKeeps(s, start, account, read, recovery);
    case ReserveOtpRow(account) => OtpRowKeeps(s, start, account, true);
    case DropOtpRow(account) => OtpRowKeeps(s, start, account, false);
  }

  lemma {:induction false} RunKeepsInv(s: State, start: map<nat, Account>, events: seq<Event>)
    requires Inv(s, start) && Run(s, events).Some?
    ensures Inv(Run(s, events).value, start)
  {
    if |events| > 0 {
      var before := events[..|events| - 1];
      RunKeepsInv(s, start, before);
      StepKeepsInv(Run(s, before).value, start, events[|events| - 1]);
    }
  }

  // ---- What every run guarantees ----

  /** Whatever interleaving of requests: each challenge is spent at most once, by one commit or one consumption. */
  lemma ChallengesAreSingleUse(s: State, events: seq<Event>)
    requires Init(s) && Run(s, events).Some?
    ensures SpentOnce(Run(s, events).value.log)
  {
    RunKeepsInv(s, s.db.accounts, events);
  }

  /** An account's session version counts its committed changes and recoveries, no more and no less. */
  lemma {:induction false} VersionsCountChanges(s: State, events: seq<Event>)
    requires Init(s) && Run(s, events).Some?
    ensures VersionInv(s.db.accounts, Run(s, events).value.db.accounts, Run(s, events).value.log)
  {
    RunKeepsInv(s, s.db.accounts, events);
  }

  lemma {:induction false} VersionStepsGrow(log: seq<Entry>, account: nat, i: nat, j: nat)
    requires i < j <= |log| && Raises(log[i], account)
    ensures VersionSteps(log[..i], account) < VersionSteps(log[..j], account)
  {
    assert log[..j][..j - 1] == log[..j - 1];
    if i < j - 1 {
      VersionStepsGrow(log, account, i, j - 1);
    }
  }

  /** Two changes of one account never start from the same version: of any that raced, one committed. */
  lemma OneChangePerVersion(s: State, events: seq<Event>, i: nat, j: nat)
    requires Init(s) && Run(s, events).Some?
    requires var log := Run(s, events).value.log;
             i < j < |log| && !log[i].ConsumedBy? && !log[j].ConsumedBy? && log[i].account == log[j].account
    ensures Run(s, events).value.log[i].version < Run(s, events).value.log[j].version
  {
    RunKeepsInv(s, s.db.accounts, events);
    var log := Run(s, events).value.log;
    VersionStepsGrow(log, log[i].account, i, j);
  }

  /** No account ever holds more than ten passkeys, however many registrations commit at once. */
  lemma PasskeysStayWithinLimit(s: State, events: seq<Event>, account: nat)
    requires Init(s) && Run(s, events).Some?
    ensures |PasskeysOf(Run(s, events).value.db.factors, account)| <= 10
  {
    RunKeepsInv(s, s.db.accounts, events);
  }

  /**
   * In every reachable state a commit's batch starts from what `SecurityDb.CommitSecurityChange` needs
   * (no row carries the fresh claim, the snapshot describes its row), so it is all or nothing.
   */
  lemma CommitIsAllOrNothing(s: State, events: seq<Event>, snap: Snapshot, change: Change, fault: bool, claim: nat)
    requires Init(s) && Run(s, events).Some?
    requires snap in Run(s, events).value.held
    ensures var u := Run(s, events).value;
            var account := if snap.row.account.Some? then snap.row.account.value else 0;
            var may := MayCommit(u.db, snap, u.now, f => Eligible(change, account, f));
            && Unclaimed(u.db.challenges, claim)
            && Faithful(u.db.challenges, snap)
            && OnCommit(u, snap, change, fault).Some?
            && (OnCommit(u, snap, change, fault).value != u <==> may && !fault)
            && (may && !fault ==>
                  && account in u.db.accounts
                  && OnCommit(u, snap, change, fault).value.db
                       == Db(Raised(u.db.accounts, account), Others(u.db.challenges, account),
                         Mutate(change, account, u.db.factors)))
  {
    RunKeepsInv(s, s.db.accounts, events);
    var u := Run(s, events).value;
    assert Faithful(u.db.challenges, snap);
    if !fault && snap.row.account.Some? {
      var account := snap.row.account.value;
      if MayCommit(u.db, snap, u.now, f => Eligible(change, account, f)) {
        CommitFactors(u, account, change);
        assert |OnCommit(u, snap, change, fault).value.log| == |u.log| + 1;
      }
    }
  }

  /** A snapshot whose row is gone authorises nothing. */
  predicate Dead(s: State, snap: Snapshot) {
    snap.id in s.issued && snap.id !in s.db.challenges
  }

  lemma {:induction false} DeadStaysDead(s: State, events: seq<Event>, snap: Snapshot)
    requires Dead(s, snap) && Run(s, events).Some?
    ensures Dead(Run(s, events).value, snap)
  {
    if |events| > 0 {
      DeadStaysDead(s, events[..|events| - 1], snap);
    }
  }

  /**
   * A committed change revokes every challenge of its account: no snapshot read before it can be
   * committed, consumed or moved on in any later state.
   */
  lemma CommitRevokesChallenges(s: State, start: map<nat, Account>, snap: Snapshot, change: Change, events: seq<Event>,
                                other: Snapshot)
    requires Inv(s, start) && OnCommit(s, snap, change, false).Some? && OnCommit(s, snap, change, false).value != s
    requires other in s.held && other.row.account == snap.row.account
    requires Run(OnCommit(s, snap, change, false).value, events).Some?
    ensures var u := Run(OnCommit(s, snap, change, false).value, events).value;
            !Usable(u.db.challenges, other, u.now)
  {
    assert Faithful(s.db.challenges, other);
    DeadStaysDead(OnCommit(s, snap, change, false).value, events, other);
  }

  // ---- A change goes through ----

  lemma ThreeSteps(s: State, e: Event, a: State, e': Event, b: State, e'': Event, t: State)
    requires Step(s, e) == Some(a) && Step(a, e') == Some(b) && Step(b, e'') == Some(t)
    ensures Run(s, [e, e', e'']) == Some(t)
  {
    assert [e, e', e''][..2] == [e, e'] && [e, e'][..1] == [e] && [e][..0] == [];
    assert Run(s, []) == Some(s) && Run(s, [e]) == Some(a) && Run(s, [e, e']) == Some(b);
  }

  /** A challenge in time, made for the version its account has. */
  predicate Fitting(s: State, row: Challenge, account: nat) {
    && account in s.db.accounts && row.account == Some(account) && row.version == Some(s.db.accounts[account].version)
    && row.expires > s.now && row.claim.None?
  }

  /** A fresh challenge is read as it was created. */
  lemma CreatedIsRead(s: State, previous: Option<Id>, id: Id, row: Challenge, account: nat) returns (a: State, b: State)
    requires id !in s.issued && Fitting(s, row, account)
    ensures Step(s, Create(previous, id, row)) == Some(a) && Step(a, Read(id)) == Some(b)
    ensures id in b.db.challenges && b.db.challenges[id] == row && Snapshot(id, row) in b.held
    ensures b == s.(db := s.db.(challenges := b.db.challenges), issued := b.issued, held := b.held)
  {
    a := OnCreate(s, previous, id, row).value;
    b := OnRead(a, id).value;
  }

  lemma OneChange()
    ensures forall g: Factors -> Factors, f: Factors :: ApplyAll([g], f) == g(f)
  {
    forall g: Factors -> Factors, f: Factors
      ensures ApplyAll([g], f) == g(f)
    {
      assert [g][..0] == [];
    }
  }

  lemma FreshCommitApplies(s: State, snap: Snapshot, account: nat, change: Change) returns (t: State)
    requires snap in s.held && snap.id in s.db.challenges && s.db.challenges[snap.id] == snap.row
    requires Fitting(s, snap.row, account) && Eligible(change, account, s.db.factors)
    ensures Step(s, Commit(snap, change, false)) == Some(t)
    ensures t.db.accounts == Raised(s.db.accounts, account) && t.db.challenges == Others(s.db.challenges, account)
    ensures t.db.factors == Mutate(change, account, s.db.factors)
    ensures t.log == s.log + [CommittedBy(snap.id, account, s.db.accounts[account].version)]
  {
    t := OnCommit(s, snap, change, false).value;
    OneChange();
  }

  /** From every state, undisturbed: created, read and committed, an eligible change is made and raises the version. */
  lemma AChangeGoesThrough(s: State, previous: Option<Id>, id: Id, row: Challenge, account: nat, change: Change)
    returns (events: seq<Event>, t: State)
    requires id !in s.issued && Fitting(s, row, account) && Eligible(change, account, s.db.factors)
    ensures events == [Create(previous, id, row), Read(id), Commit(Snapshot(id, row), change, false)]
    ensures Run(s, events) == Some(t)
    ensures t.db.factors == Mutate(change, account, s.db.factors)
    ensures t.db.accounts.Keys == s.db.accounts.Keys
    ensures t.db.accounts[account].version == s.db.accounts[account].version + 1
    ensures forall k :: k in t.db.challenges ==> t.db.challenges[k].account != Some(account)
    ensures t.log == s.log + [CommittedBy(id, account, s.db.accounts[account].version)]
  {
    var snap := Snapshot(id, row);
    var a, b := CreatedIsRead(s, previous, id, row, account);
    t := FreshCommitApplies(b, snap, account, change);
    ThreeSteps(s, Create(previous, id, row), a, Read(id), b, Commit(snap, change, false), t);
    events := [Create(previous, id, row), Read(id), Commit(snap, change, false)];
  }

  /** And so does a sign-in that only consumes its challenge. */
  lemma AConsumptionGoesThrough(s: State, previous: Option<Id>, id: Id, row: Challenge, account: nat)
    requires id !in s.issued && Fitting(s, row, account)
    ensures var done := Run(s, [Create(previous, id, row), Read(id), Consume(Snapshot(id, row))]);
            && done.Some? && id !in done.value.db.challenges && done.value.log == s.log + [ConsumedBy(id)]
            && done.value.db.accounts == s.db.accounts && done.value.db.factors == s.db.factors
  {
    var snap := Snapshot(id, row);
    var a, b := CreatedIsRead(s, previous, id, row, account);
    ThreeSteps(s, Create(previous, id, row), a, Read(id), b, Consume(snap), OnConsume(b, snap).value);
  }

  /** A challenge that is moved on is there for its next purpose until it expires, and the old snapshot is not. */
  lemma AMoveGoesThrough(s: State, previous: Option<Id>, id: Id, row: Challenge, account: nat, purpose: nat,
                         expires: int)
    requires id !in s.issued && Fitting(s, row, account) && purpose != row.purpose
    ensures var snap := Snapshot(id, row);
            var moved := Run(s, [Create(previous, id, row), Read(id), Transition(snap, purpose, expires)]);
            && moved.Some? && id in moved.value.db.challenges
            && moved.value.db.challenges[id] == row.(purpose := purpose, expires := expires)
            && !Usable(moved.value.db.challenges, snap, s.now)
            && moved.value.db.accounts == s.db.accounts && moved.value.db.factors == s.db.factors
            && moved.value.log == s.log
  {
    var snap := Snapshot(id, row);
    var a, b := CreatedIsRead(s, previous, id, row, account);
    ThreeSteps(s, Create(previous, id, row), a, Read(id), b, Transition(snap, purpose, expires),
               OnTransition(b, snap, purpose, expires).value);
  }

  /** A recovery happens exactly when the account is as it was read; it raises the version and takes every factor. */
  lemma RecoveryTakesEverything(s: State, account: nat, read: Account, recovery: nat)
    ensures Step(s, Recover(account, read, recovery)).Some?
    ensures var t := Step(s, Recover(account, read, recovery)).value;
            if account in s.db.accounts && s.db.accounts[account] == read then
              && t.db.accounts == s.db.accounts[account := Account(read.version + 1, recovery)]
              && account !in t.db.factors.totp && PasskeysOf(t.db.factors, account) == {}
              && OthersKeep(s.db.factors, t.db.factors, account)
              && (forall k :: k in t.db.challenges <==>
                    k in s.db.challenges && s.db.challenges[k].account != Some(account))
              && t.log == s.log + [RecoveredAt(account, read.version)]
            else t == s
  {
  }

  /** The sweep removes exactly the challenges whose time is over. */
  lemma SweepSparesTheRest(s: State)
    ensures Step(s, Sweep).Some?
    ensures var t := Step(s, Sweep).value;
            && t == s.(db := s.db.(challenges := t.db.challenges))
            && (forall k :: k in t.db.challenges <==> k in s.db.challenges && s.db.challenges[k].expires > s.now)
            && (forall k :: k in t.db.challenges ==> t.db.challenges[k] == s.db.challenges[k])
  {
  }

  /** The attempt counter's row comes and goes without touching a secret, or anything else. */
  lemma OtpRowsSpareSecrets(s: State, account: nat, insert: bool)
    ensures OnOtpRow(s, account, insert).Some?
    ensures var before, t := s.db.factors.totp, OnOtpRow(s, account, insert).value;
            var after := t.db.factors.totp;
            && t == s.(db := s.db.(factors := s.db.factors.(totp := after)))
            && (account in after <==> insert || (account in before && before[account].Some?))
            && (forall a :: a in before && (a != account || before[a].Some?) ==> a in after && after[a] == before[a])
            && (forall a :: a in after && a !in before ==> a == account && after[a] == None)
  {
  }

  // ---- The session version ----

  /** The row is for an account that is gone, or for another session version than the account's. */
  predicate OtherVersion(accounts: map<nat, Account>, row: Challenge) {
    && row.account.Some?
    && (row.version.None? || row.account.value !in accounts || accounts[row.account.value].version != row.version.value)
  }

  /** In every reachable state a snapshot for another session version than the account's authorises nothing. */
  lemma OtherVersionAuthorisesNothing(s: State, events: seq<Event>, snap: Snapshot, purpose: nat, expires: int,
                                      change: Change)
    requires Init(s) && Run(s, events).Some?
    requires var u := Run(s, events).value; snap in u.held && OtherVersion(u.db.accounts, snap.row)
    ensures var u := Run(s, events).value;
            && Step(u, Consume(snap)) == Some(u)
            && Step(u, Transition(snap, purpose, expires)) == Some(u)
            && Step(u, Commit(snap, change, false)) == Some(u)
  {
    RunKeepsInv(s, s.db.accounts, events);
    assert Faithful(Run(s, events).value.db.challenges, snap);
  }

  /** Made for an earlier version than the account's. */
  predicate Outdated(accounts: map<nat, Account>, row: Challenge) {
    && row.account.Some? && row.version.Some? && row.account.value in accounts
    && row.version.value < accounts[row.account.value].version
  }

  lemma StepKeepsOutdated(s: State, e: Event, row: Challenge)
    requires Outdated(s.db.accounts, row) && Step(s, e).Some?
    ensures Outdated(Step(s, e).value.db.accounts, row)
  {
  }

  lemma {:induction false} RunKeepsOutdated(s: State, events: seq<Event>, row: Challenge)
    requires Outdated(s.db.accounts, row) && Run(s, events).Some?
    ensures Outdated(Run(s, events).value.db.accounts, row)
  {
    if |events| > 0 {
      var before := events[..|events| - 1];
      RunKeepsOutdated(s, before, row);
      StepKeepsOutdated(Run(s, before).value, events[|events| - 1], row);
    }
  }

  /**
   * Once the version has moved past the one in its row, a snapshot authorises nothing in any later
   * state, although the row itself may have been inserted after the change that moved it.
   */
  lemma OutdatedForEver(s: State, start: map<nat, Account>, events: seq<Event>, snap: Snapshot)
    requires Inv(s, start) && snap in s.held && Outdated(s.db.accounts, snap.row) && Run(s, events).Some?
    ensures var u := Run(s, events).value;
            !MayConsume(u.db, snap, u.now) && !MayTransition(u.db, snap, u.now)
            && forall eligible: Factors -> bool :: !MayCommit(u.db, snap, u.now, eligible)
  {
    RunFrom(s, start, events, snap);
    RunKeepsOutdated(s, events, snap.row);
    assert Faithful(Run(s, events).value.db.challenges, snap);
  }

  lemma {:induction false} RunFrom(s: State, start: map<nat, Account>, events: seq<Event>, snap: Snapshot)
    requires Inv(s, start) && snap in s.held && Run(s, events).Some?
    ensures Inv(Run(s, events).value, start) && snap in Run(s, events).value.held
  {
    if |events| > 0 {
      var before := events[..|events| - 1];
      RunFrom(s, start, before, snap);
      StepKeepsInv(Run(s, before).value, start, events[|events| - 1]);
    }
  }

  // ---- What a change does ----

  predicate TakesEffect(change: Change, account: nat, f: Factors) {
    match change
    case AddPasskey(key) => key in f.passkeys && f.passkeys[key] == account
    case DeletePasskey(key) => key !in f.passkeys
    case EnableTotp(secret) => account in f.totp && f.totp[account] == Some(secret)
    case DisableTotp => account !in f.totp
  }

  /** The factors of every other account are as they were. */
  ghost predicate OthersKeep(before: Factors, after: Factors, account: nat) {
    && (forall k :: k in before.passkeys && before.passkeys[k] != account ==>
          k in after.passkeys && after.passkeys[k] == before.passkeys[k])
    && (forall k :: k in after.passkeys && after.passkeys[k] != account ==> k in before.passkeys)
    && (forall a :: a != account ==> (a in after.totp <==> a in before.totp))
    && (forall a :: a != account && a in before.totp ==> after.totp[a] == before.totp[a])
  }

  /** An eligible change takes effect, loses no other passkey of its account and touches nobody else's factors. */
  lemma ChangesStayWithinTheAccount(change: Change, account: nat, f: Factors)
    requires Eligible(change, account, f)
    ensures TakesEffect(change, account, Mutate(change, account, f))
    ensures OthersKeep(f, Mutate(change, account, f), account)
    ensures forall k :: k in f.passkeys && change != DeletePasskey(k) ==> k in Mutate(change, account, f).passkeys
    ensures forall a :: a in f.totp && f.totp[a].Some? && change != DisableTotp ==>
              a in Mutate(change, account, f).totp && Mutate(change, account, f).totp[a] == f.totp[a]
  {
  }

  /** A tenth passkey can be added, only one's own can be removed, and a secret is set once until it is removed. */
  lemma EligibleChanges(account: nat, f: Factors, key: nat, secret: nat)
    ensures Eligible(AddPasskey(key), account, f) <==> key !in f.passkeys && |PasskeysOf(f, account)| <= 9
    ensures Eligible(DeletePasskey(key), account, f) <==> key in PasskeysOf(f, account)
    ensures Eligible(EnableTotp(secret), account, f) <==> account in f.totp && f.totp[account] == None
    ensures Eligible(DisableTotp, account, f) <==> account in f.totp && f.totp[account] != None
  {
  }
}
