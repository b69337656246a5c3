/**
 * Single-use security challenges, and the batch that commits an account's security change under a
 * random claim (lib/account/securityStore.ts).
 */
module SecurityStore {
  import opened Bytes

  type Id = nat

  datatype Account = Account(version: nat, recovery: nat)

  datatype Challenge = Challenge(account: Option<nat>, version: Option<nat>, purpose: nat, expires: int,
                                 claim: Option<nat>)

  /** The rows a security change touches: passkeys with their owner, and one TOTP row an account. */
  datatype Factors = Factors(passkeys: map<nat, nat>, totp: map<nat, Option<nat>>)

  /** A challenge as a request read it. */
  datatype Snapshot = Snapshot(id: Id, row: Challenge)

  datatype Db = Db(accounts: map<nat, Account>, challenges: map<Id, Challenge>, factors: Factors)

  /** The challenge's account still has the session version the challenge was made for. */
  predicate Current(accounts: map<nat, Account>, row: Challenge) {
    && row.account.Some?
    && row.version.Some?
    && row.account.value in accounts
    && accounts[row.account.value].version == row.version.value
  }

  /** Unclaimed, unexpired, and still at the purpose the request read. */
  predicate Usable(challenges: map<Id, Challenge>, snap: Snapshot, now: int) {
    && snap.id in challenges
    && challenges[snap.id].purpose == snap.row.purpose
    && challenges[snap.id].expires > now
    && challenges[snap.id].claim.None?
  }

  predicate MayCommit(db: Db, snap: Snapshot, now: int, eligible: Factors -> bool) {
    && snap.row.account.Some?
    && snap.row.version.Some?
    && Usable(db.challenges, snap, now)
    && Current(db.accounts, db.challenges[snap.id])
    && eligible(db.factors)
  }

  function ApplyAll(changes: seq<Factors -> Factors>, f: Factors): Factors {
    if |changes| == 0 then f else changes[|changes| - 1](ApplyAll(changes[..|changes| - 1], f))
  }

  function Others(challenges: map<Id, Challenge>, account: nat): (rest: map<Id, Challenge>)
    ensures rest.Keys <= challenges.Keys
    ensures forall id :: id in challenges ==> (id in rest <==> challenges[id].account != Some(account))
    ensures forall id :: id in rest ==> rest[id] == challenges[id]
  {
    map id | id in challenges && challenges[id].account != Some(account) :: challenges[id]
  }

  function Raised(accounts: map<nat, Account>, account: nat): map<nat, Account>
    requires account in accounts
  {
    accounts[account := accounts[account].(version := accounts[account].version + 1)]
  }

  /** A committed change: its mutations, one version step, and none of the account's challenges left. */
  function Committed(db: Db, account: nat, changes: seq<Factors -> Factors>): Db
    requires account in db.accounts
  {
    Db(Raised(db.accounts, account), Others(db.challenges, account), ApplyAll(changes, db.factors))
  }

  predicate Unclaimed(challenges: map<Id, Challenge>, claim: nat) {
    forall id :: id in challenges ==> challenges[id].claim != Some(claim)
  }

  /** What the request read still describes the row: account and version never change in place. */
  predicate Faithful(challenges: map<Id, Challenge>, snap: Snapshot) {
    snap.id in challenges ==>
      && challenges[snap.id].account == snap.row.account
      && challenges[snap.id].version == snap.row.version
  }

  function Unexpired(challenges: map<Id, Challenge>, now: int): map<Id, Challenge> {
    map id | id in challenges && challenges[id].expires > now :: challenges[id]
  }

  function Replaced(challenges: map<Id, Challenge>, previous: Option<Id>, id: Id, row: Challenge): map<Id, Challenge> {
    (if previous.Some? then challenges - {previous.value} else challenges)[id := row]
  }

  predicate MayConsume(db: Db, snap: Snapshot, now: int) {
    && Usable(db.challenges, snap, now)
    && (db.challenges[snap.id].account.None? || Current(db.accounts, db.challenges[snap.id]))
  }

  predicate MayTransition(db: Db, snap: Snapshot, now: int) {
    Usable(db.challenges, snap, now) && Current(db.accounts, db.challenges[snap.id])
  }

  predicate MayRecover(accounts: map<nat, Account>, account: nat, read: Account) {
    account in accounts && accounts[account] == read
  }

  function WithoutFactors(f: Factors, account: nat): Factors {
    Factors(map k | k in f.passkeys && f.passkeys[k] != account :: f.passkeys[k], f.totp - {account})
  }

  function Recovered(db: Db, account: nat, recovery: nat): Db
    requires account in db.accounts
  {
    Db(db.accounts[account := Account(db.accounts[account].version + 1, recovery)],
       Others(db.challenges, account),
       WithoutFactors(db.factors, account))
  }

  /** The tables, written statement by statement. */
  class SecurityDb {
    var accounts: map<nat, Account>
    var challenges: map<Id, Challenge>
    var factors: Factors

    constructor (accounts: map<nat, Account>, factors: Factors)
      ensures Contents() == Db(accounts, map[], factors)
    {
      this.accounts := accounts;
      this.challenges := map[];
      this.factors := factors;
    }

    ghost function Contents(): Db
      reads this
    {
      Db(accounts, challenges, factors)
    }

    /** The condition every guarded statement of a commit carries. */
    predicate Guard(snap: Snapshot, claim: nat)
      reads this
    {
      && snap.id in challenges
      && challenges[snap.id].claim == Some(claim)
      && Current(accounts, challenges[snap.id])
      && challenges[snap.id].version == snap.row.version
    }

    method Rollback(db: Db)
      modifies this
      ensures Contents() == db
    {
      accounts, challenges, factors := db.accounts, db.challenges, db.factors;
    }

    /**
     * Four kinds of statements in one transaction: claim the challenge, the guarded mutations, the
     * guarded version step, the clean-up. `fault` is the statement at which the database raises an
     * error, if any, which undoes the batch. The claim is drawn at random, so no row carries it yet.
     * It succeeds exactly when the row is there, unclaimed, in time and at the purpose that was read, its
     * account has the session version in the row, and the change may be made; then the version goes up
     * by one and no challenge of the account is left.
     */
    method CommitSecurityChange(snap: Snapshot, claim: nat, now: int, changes: seq<Factors -> Factors>,
                                eligible: Factors -> bool, fault: Option<nat>)
      returns (ok: bool)
      requires Unclaimed(challenges, claim) && Faithful(challenges, snap)
      modifies this
      ensures ok <==> old(MayCommit(Contents(), snap, now, eligible)) && (fault.Some? ==> fault.value >= |changes| + 3)
      ensures old(MayCommit(Contents(), snap, now, eligible)) <==>
                && snap.id in old(challenges) && var row := old(challenges)[snap.id];
                && row.purpose == snap.row.purpose && row.expires > now && row.claim.None?
                && row.account.Some? && row.version.Some? && row.account.value in old(accounts)
                && old(accounts)[row.account.value].version == row.version.value
                && eligible(old(factors))
      ensures ok ==>
                && snap.row.account.Some? && var account := snap.row.account.value;
                && account in old(accounts)
                && accounts == old(accounts)[account := Account(old(accounts)[account].version + 1,
                                                                old(accounts)[account].recovery)]
                && (forall id :: id in challenges <==>
                      id in old(challenges) && old(challenges)[id].account != Some(account))
                && (forall id :: id in challenges ==> challenges[id] == old(challenges)[id])
                && factors == ApplyAll(changes, old(factors))
      ensures ok ==> Contents() == old(Committed(Contents(), snap.row.account.value, changes))
      ensures !ok ==> Contents() == old(Contents())
    {
      if snap.row.account.None? || snap.row.version.None? {
        return false;
      }
      var account := snap.row.account.value;
      var before := Db(accounts, challenges, factors);
      var claimed := false;
      if Usable(challenges, snap, now) && Current(accounts, challenges[snap.id]) && eligible(factors) {
        challenges := challenges[snap.id := challenges[snap.id].(claim := Some(claim))];
        claimed := true;
      }
      var i := 0;
      while i < |changes| && fault != Some(i)
        invariant 0 <= i <= |changes| && (fault.Some? ==> fault.value >= i)
        invariant claimed == old(MayCommit(Contents(), snap, now, eligible)) == Guard(snap, claim)
        invariant accounts == before.accounts
        invariant claimed ==>
                  challenges == before.challenges[snap.id := before.challenges[snap.id].(claim := Some(claim))]
        invariant !claimed ==> challenges == before.challenges
        invariant factors == if claimed then ApplyAll(changes[..i], before.factors) else before.factors
      {
        assert changes[..i + 1][..i] == changes[..i];
        if Guard(snap, claim) {
          factors := changes[i](factors);
        }
        i := i + 1;
      }
      if fault.Some? && fault.value < |changes| + 3 {
        Rollback(before);
        return false;
      }
      assert changes[..i] == changes;
      ok := false;
      if account in accounts && Guard(snap, claim) {
        accounts := Raised(accounts, account);
        ok := true;
      }
      if snap.id in challenges && challenges[snap.id].claim == Some(claim) {
        challenges := Others(challenges, account);
      }
    }

    /** Exactly the rows still in time stay, as they are: nobody can tell the sweep from no sweep. */
    method DeleteExpiredAuthChallenges(now: int)
      modifies this`challenges
      ensures forall id :: id in challenges <==> id in old(challenges) && old(challenges)[id].expires > now
      ensures forall id :: id in challenges ==> challenges[id] == old(challenges)[id]
      ensures forall snap: Snapshot :: Usable(challenges, snap, now) <==> Usable(old(challenges), snap, now)
    {
      challenges := Unexpired(challenges, now);
    }

    /**
     * The new challenge is usable until it expires and no longer; the one the browser still held a cookie
     * for is usable by nobody at any time; of the others exactly those still in time stay, as they are.
     */
    method CreateAuthChallenge(previous: Option<Id>, id: Id, row: Challenge, now: int)
      requires id !in challenges
      modifies this`challenges
      ensures forall t: int :: Usable(challenges, Snapshot(id, row), t) <==> row.claim.None? && t < row.expires
      ensures previous.Some? && previous.value != id ==>
                forall snap: Snapshot, t: int :: snap.id == previous.value ==> !Usable(challenges, snap, t)
      ensures forall other :: other != id ==>
                (other in challenges <==>
                   other in old(challenges) && old(challenges)[other].expires > now && previous != Some(other))
      ensures forall other :: other != id && other in challenges ==> challenges[other] == old(challenges)[other]
      ensures forall snap: Snapshot, t: int :: snap.id != id && previous != Some(snap.id) && t >= now ==>
                (Usable(challenges, snap, t) <==> Usable(old(challenges), snap, t))
      ensures challenges == Replaced(Unexpired(old(challenges), now), previous, id, row)
    {
      DeleteExpiredAuthChallenges(now);
      if previous.Some? {
        challenges := challenges - {previous.value};
      }
      challenges := challenges[id := row];
    }

    /**
     * Of any requests that hold the challenge one consumes it: afterwards no snapshot of it, whenever
     * read, is usable at any time. Every other row is untouched.
     */
    method ConsumeAuthChallenge(snap: Snapshot, now: int) returns (ok: bool)
      modifies this`challenges
      ensures ok == old(MayConsume(Contents(), snap, now))
      ensures ok <==>
                && snap.id in old(challenges) && var row := old(challenges)[snap.id];
                && row.purpose == snap.row.purpose && row.expires > now && row.claim.None?
                && (row.account.Some? ==>
                      && row.version.Some? && row.account.value in accounts
                      && accounts[row.account.value].version == row.version.value)
      ensures ok ==> forall other: Snapshot, t: int :: other.id == snap.id ==> !Usable(challenges, other, t)
      ensures !ok ==> challenges == old(challenges)
      ensures forall id :: id != snap.id ==> (id in challenges <==> id in old(challenges))
      ensures forall id :: id in challenges ==> challenges[id] == old(challenges)[id]
    {
      ok := Usable(challenges, snap, now)
      && (challenges[snap.id].account.None? || Current(accounts, challenges[snap.id]));
      if ok {
        challenges := challenges - {snap.id};
      }
    }

    /**
     * The challenge moves on: the snapshot that moved it is used up unless the purpose is the same, one
     * read from now on is usable until the new expiry, and it is still for the same account and version.
     */
    method TransitionAuthChallenge(snap: Snapshot, purpose: nat, expires: int, now: int) returns (ok: bool)
      modifies this`challenges
      ensures ok == old(MayTransition(Contents(), snap, now))
      ensures ok <==>
                && snap.id in old(challenges) && var row := old(challenges)[snap.id];
                && row.purpose == snap.row.purpose && row.expires > now && row.claim.None?
                && row.account.Some? && row.version.Some? && row.account.value in accounts
                && accounts[row.account.value].version == row.version.value
      ensures ok && purpose != snap.row.purpose ==> forall t: int :: !Usable(challenges, snap, t)
      ensures ok ==> snap.id in challenges && challenges[snap.id].purpose == purpose
      ensures ok ==> forall t: int :: Usable(challenges, Snapshot(snap.id, challenges[snap.id]), t) <==> t < expires
      ensures forall other: Snapshot :: Faithful(old(challenges), other) ==> Faithful(challenges, other)
      ensures !ok ==> challenges == old(challenges)
      ensures challenges.Keys == old(challenges).Keys
      ensures forall id :: id in challenges && id != snap.id ==> challenges[id] == old(challenges)[id]
    {
      ok := Usable(challenges, snap, now) && Current(accounts, challenges[snap.id]);
      if ok {
        challenges := challenges[snap.id := challenges[snap.id].(purpose := purpose, expires := expires)];
      }
    }

    /**
     * Account recovery: the update, then three deletions guarded by the new code's hash and the next
     * version. The new hash is this request's own value, so the row does not hold it beforehand. It
     * succeeds exactly when version and hash are still those read; then the account has the next version,
     * the new hash, and no passkey, TOTP row or challenge, and nobody else's are touched.
     */
    method Recover(account: nat, read: Account, recovery: nat) returns (ok: bool)
      requires account in accounts ==> accounts[account].recovery != recovery
      modifies this
      ensures ok == old(MayRecover(accounts, account, read))
      ensures ok <==>
                && account in old(accounts) && old(accounts)[account].version == read.version
                && old(accounts)[account].recovery == read.recovery
      ensures ok ==>
                && accounts == old(accounts)[account := Account(read.version + 1, recovery)]
                && (forall k :: k in factors.passkeys <==>
                      k in old(factors).passkeys && old(factors).passkeys[k] != account)
                && (forall k :: k in factors.passkeys ==> factors.passkeys[k] == old(factors).passkeys[k])
                && factors.totp == old(factors).totp - {account}
                && (forall id :: id in challenges <==>
                      id in old(challenges) && old(challenges)[id].account != Some(account))
                && (forall id :: id in challenges ==> challenges[id] == old(challenges)[id])
      ensures Contents() == if ok then old(Recovered(Contents(), account, recovery)) else old(Contents())
    {
      ok := account in accounts && accounts[account].recovery == read.recovery
        && accounts[account].version == read.version;
      if ok {
        accounts := accounts[account := Account(accounts[account].version + 1, recovery)];
      }
      if account in accounts && accounts[account] == Account(read.version + 1, recovery) {
        var others := map k | k in factors.passkeys && factors.passkeys[k] != account :: factors.passkeys[k];
        factors := factors.(passkeys := others);
      }
      if account in accounts && accounts[account] == Account(read.version + 1, recovery) {
        factors := factors.(totp := factors.totp - {account});
      }
      if account in accounts && accounts[account] == Account(read.version + 1, recovery) {
        challenges := Others(challenges, account);
      }
    }
  }
}
