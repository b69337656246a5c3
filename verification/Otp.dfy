/**
 * One-time passwords of one account: the attempt budget reserved before a code is looked at, and the
 * rule that a time step is accepted once (lib/account/securityStore.ts, lib/account/totp.ts).
 */
module Otp {
  import opened Bytes

  /** Five minutes, in milliseconds. */
  const WINDOW := 300_000
  const MAX_ATTEMPTS := 5
  const STEP_LENGTH := 30_000

  datatype Row = Row(attempts: nat, started: int, secret: Option<nat>, lastStep: int)

  // ---- The row's statements ----

  predicate MayReserve(row: Option<Row>, now: int) {
    row.None? || row.value.started <= now - WINDOW || row.value.attempts < MAX_ATTEMPTS
  }

  /** The upsert that counts an attempt, opening a new window when the old one is over. */
  function Reserved(row: Option<Row>, now: int): Row
    requires MayReserve(row, now)
  {
    if row.None? then Row(1, now, None, -1)
    else if row.value.started <= now - WINDOW then row.value.(attempts := 1, started := now)
    else row.value.(attempts := row.value.attempts + 1)
  }

  predicate Running(row: Option<Row>, now: int) {
    row.Some? && row.value.started > now - WINDOW
  }

  /** The attempts left at `now`: five in a new window, and what the running one has not used yet. */
  function Left(row: Option<Row>, now: int): nat {
    if !Running(row, now) then MAX_ATTEMPTS
    else if row.value.attempts < MAX_ATTEMPTS then MAX_ATTEMPTS - row.value.attempts
    else 0
  }

  /** The update that uses up a time step of the secret the request read. */
  predicate MayAccept(row: Option<Row>, secret: nat, step: int, sameVersion: bool) {
    row.Some? && row.value.secret == Some(secret) && row.value.lastStep < step && sameVersion
  }

  predicate MaySweep(row: Option<Row>, now: int, settingUp: bool) {
    row.Some? && row.value.secret.None? && row.value.started <= now - WINDOW && !settingUp
  }

  predicate MayEnrol(row: Option<Row>) {
    row.Some? && row.value.secret.None?
  }

  class TotpTable {
    var row: Option<Row>

    constructor ()
      ensures row == None
    {
      row := None;
    }

    /**
     * One statement: `INSERT … ON CONFLICT DO UPDATE … WHERE window over OR attempts < 5`. An attempt is
     * granted exactly while one is left and uses up one; the window moves, to now, only when it was over;
     * secret and last step stay; a refusal, five attempts into a running window, changes nothing.
     */
    method ReserveOtpAttempt(now: int) returns (ok: bool)
      modifies this
      ensures ok <==> Left(old(row), now) > 0
      ensures ok ==> Running(row, now) && row.value.attempts >= 1 && Left(row, now) == Left(old(row), now) - 1
      ensures ok ==> row.value.started == if Running(old(row), now) then old(row).value.started else now
      ensures ok ==> row.value.secret == (if old(row).Some? then old(row).value.secret else None)
      ensures ok && old(row).Some? ==> row.value.lastStep == old(row).value.lastStep
      ensures !ok ==> row == old(row) && Running(row, now) && row.value.attempts >= MAX_ATTEMPTS
      ensures ok == MayReserve(old(row), now)
      ensures row == if ok then Some(Reserved(old(row), now)) else old(row)
    {
      if row.None? {
        row := Some(Row(1, now, None, -1));
        return true;
      }
      var r := row.value;
      ok := r.started <= now - WINDOW || r.attempts < MAX_ATTEMPTS;
      if ok {
        row := Some(r.(attempts := if r.started <= now - WINDOW then 1 else r.attempts + 1,
                       started := if r.started <= now - WINDOW then now else r.started));
      }
    }

    /**
     * A login's check of a code: an attempt is spent whatever the code is, and a step is accepted only
     * past the last one. `expected(step)` says that the secret's code at `step` is the one typed.
     */
    method VerifyAccountOtp(secret: Option<nat>, expected: nat -> bool, now: nat, sameVersion: bool)
      returns (step: Option<nat>)
      modifies this
      ensures secret.None? ==> step == None && row == old(row)
      ensures secret.Some? && !MayReserve(old(row), now) ==> step == None && row == old(row)
      ensures secret.Some? && MayReserve(old(row), now) ==>
                var reserved := Reserved(old(row), now);
                var found := Newest(expected, now);
                && (step.Some? <==> found.Some? && MayAccept(Some(reserved), secret.value, found.value, sameVersion))
                && (step.Some? <==> found.Some? && sameVersion && old(row).Some? && old(row).value.secret == secret
                                    && old(row).value.lastStep < found.value)
                && (step.Some? ==> step == found && row == Some(reserved.(lastStep := found.value)))
                && (step.None? ==> row == Some(reserved))
    {
      if secret.None? {
        return None;
      }
      var ok := ReserveOtpAttempt(now);
      if !ok {
        return None;
      }
      step := MatchTotpStep(expected, now);
      if step.Some? && row.value.secret == secret && row.value.lastStep < step.value && sameVersion {
        row := Some(row.value.(lastStep := step.value));
      } else {
        step := None;
      }
    }
  }

  /** The newest step, of the current one and its two neighbours, whose code was typed. */
  function Newest(expected: nat -> bool, now: nat): (r: Option<nat>)
    ensures r.Some? ==> expected(r.value) && now / STEP_LENGTH <= r.value + 1 <= now / STEP_LENGTH + 2
  {
    var current := now / STEP_LENGTH;
    if expected(current + 1) then Some(current + 1)
    else if expected(current) then Some(current)
    else if current > 0 && expected(current - 1) then Some(current - 1)
    else None
  }

  /** Of the current step and its two neighbours the newest whose code was typed, and none only if none was. */
  method MatchTotpStep(expected: nat -> bool, now: nat) returns (matched: Option<nat>)
    ensures matched.Some? ==>
              && expected(matched.value)
              && now / STEP_LENGTH - 1 <= matched.value <= now / STEP_LENGTH + 1
              && forall step: nat :: matched.value < step <= now / STEP_LENGTH + 1 ==> !expected(step)
    ensures matched.None? ==>
              forall step: nat :: now / STEP_LENGTH - 1 <= step <= now / STEP_LENGTH + 1 ==> !expected(step)
    ensures matched == Newest(expected, now)
  {
    var current: int := now / STEP_LENGTH;
    matched := None;
    var steps := [current - 1, current, current + 1];
    var i := 0;
    while i < 3
      invariant 0 <= i <= 3
      invariant matched == if i > 2 && expected(current + 1) then Some(current + 1)
                           else if i > 1 && expected(current) then Some(current)
                           else if i > 0 && current > 0 && expected(current - 1) then Some(current - 1)
                           else None
    {
      if steps[i] >= 0 {
        if expected(steps[i]) {
          matched := Some(steps[i]);
        }
      }
      i := i + 1;
    }
  }

  // ---- Runs ----

  /** A granted attempt, and the start of the window it was counted in. */
  datatype Grant = Grant(at: int, window: int)

  datatype Use = Use(secret: nat, step: int)

  /**
   * `grants` are the attempts granted since the row was last erased by disabling or recovery; `uses`
   * are all the steps ever accepted; `secrets` are the encrypted secrets ever enrolled.
   */
  datatype State = State(row: Option<Row>, now: int, grants: seq<Grant>, uses: seq<Use>, secrets: set<nat>)

  datatype Event =
    | Tick(now: int)
    | Reserve
    | Accept(secret: nat, step: int, sameVersion: bool)
    | Enrol(secret: nat, step: int)
    | SweepRow(settingUp: bool)
    | Erase

  function OnReserve(s: State): State {
    if !MayReserve(s.row, s.now) then s
    else
      var r := Reserved(s.row, s.now);
      s.(row := Some(r), grants := s.grants + [Grant(s.now, r.started)])
  }

  function OnAccept(s: State, secret: nat, step: int, sameVersion: bool): State {
    if !MayAccept(s.row, secret, step, sameVersion) then s
    else s.(row := Some(s.row.value.(lastStep := step)), uses := s.uses + [Use(secret, step)])
  }

  /** Confirming a set-up stores a newly encrypted secret; its first code counts as used. */
  function OnEnrol(s: State, secret: nat, step: int): Option<State> {
    if secret in s.secrets then None
    else if !MayEnrol(s.row) then Some(s)
    else Some(s.(row := Some(s.row.value.(secret := Some(secret), lastStep := step)),
                 uses := s.uses + [Use(secret, step)],
                 secrets := s.secrets + {secret}))
  }

  function Step(s: State, e: Event): Option<State> {
    match e
    case Tick(now) => if now >= s.now then Some(s.(now := now)) else None
    case Reserve => Some(OnReserve(s))
    case Accept(secret, step, sameVersion) => Some(OnAccept(s, secret, step, sameVersion))
    case Enrol(secret, step) => OnEnrol(s, secret, step)
    case SweepRow(settingUp) => Some(if MaySweep(s.row, s.now, settingUp) then s.(row := None) else s)
    case Erase => Some(s.(row := None, grants := []))
  }

  function Run(s: State, events: seq<Event>): Option<State> {
    if |events| == 0 then Some(s)
    else
      var before := Run(s, events[..|events| - 1]);
      if before.None? then None else Step(before.value, events[|events| - 1])
  }

  predicate Init(s: State) {
    s.row == None && s.grants == [] && s.uses == [] && s.secrets == {}
  }

  // ---- What the single statements may do ----

  /** Sweeping removes exactly a row without a secret, whose window is over, while no set-up is under way. */
  lemma SweepSparesSecrets(s: State, settingUp: bool)
    ensures var t := Step(s, SweepRow(settingUp)).value;
            && t == s.(row := t.row)
            && (t.row != s.row <==>
                  && s.row.Some? && s.row.value.secret.None? && !settingUp
                  && s.now >= s.row.value.started + WINDOW)
            && (t.row == s.row || t.row.None?)
  {
  }

  /** Enrolling stores the secret exactly where a row without one is waiting for it, and uses up the step. */
  lemma EnrolsOnlyOnce(s: State, secret: nat, step: int)
    requires secret !in s.secrets
    ensures var t := Step(s, Enrol(secret, step));
            t.Some? && if s.row.Some? && s.row.value.secret.None? then
                         && t.value.row.Some? && t.value.row.value.secret == Some(secret)
                         && t.value.row.value.lastStep == step
                         && t.value.row.value.attempts == s.row.value.attempts
                         && t.value.row.value.started == s.row.value.started
                         && t.value.uses == s.uses + [Use(secret, step)]
                       else t.value == s
  {
  }

  /** A step is accepted exactly for the secret in the row, past its last step, in the version that was read. */
  lemma AcceptsOnlyLaterSteps(s: State, secret: nat, step: int, sameVersion: bool)
    ensures var t := Step(s, Accept(secret, step, sameVersion)).value;
            if s.row.Some? && s.row.value.secret == Some(secret) && s.row.value.lastStep < step && sameVersion then
              && t.row == Some(s.row.value.(lastStep := step)) && t.uses == s.uses + [Use(secret, step)]
            else t == s
  {
  }

  // ---- The attempt budget ----

  predicate InWindow(g: Grant) {
    g.window <= g.at < g.window + WINDOW
  }

  /** Grants come in order, each inside its window, and different windows do not overlap. */
  predicate Windowed(grants: seq<Grant>) {
    && (forall i :: 0 <= i < |grants| ==> InWindow(grants[i]))
    && (forall i, j :: 0 <= i < j < |grants| ==>
          grants[i].window == grants[j].window || grants[i].window + WINDOW <= grants[j].window)
  }

  /** Five grants a window: the sixth later one is in a later window. */
  predicate FiveAWindow(grants: seq<Grant>) {
    forall j :: MAX_ATTEMPTS <= j < |grants| ==> grants[j - MAX_ATTEMPTS].window + WINDOW <= grants[j].window
  }

  predicate InThePast(grants: seq<Grant>, now: int) {
    forall i :: 0 <= i < |grants| ==> grants[i].at <= now
  }

  /** The row's counter counts the grants of its window, which are the latest ones. */
  predicate Counted(row: Option<Row>, now: int, grants: seq<Grant>) {
    match row
    case None => forall i :: 0 <= i < |grants| ==> grants[i].window + WINDOW <= now
    case Some(r) =>
      && 1 <= r.attempts <= MAX_ATTEMPTS
      && r.attempts <= |grants|
      && r.started <= now
      && (forall i :: |grants| - r.attempts <= i < |grants| ==> grants[i].window == r.started)
      && (forall i :: 0 <= i < |grants| - r.attempts ==> grants[i].window + WINDOW <= r.started)
  }

  predicate BudgetInv(s: State) {
    Windowed(s.grants) && FiveAWindow(s.grants) && InThePast(s.grants, s.now) && Counted(s.row, s.now, s.grants)
  }

  lemma AppendGrant(grants: seq<Grant>, g: Grant)
    requires Windowed(grants) && FiveAWindow(grants) && InWindow(g)
    requires forall i :: 0 <= i < |grants| ==> grants[i].window == g.window || grants[i].window + WINDOW <= g.window
    requires |grants| >= MAX_ATTEMPTS ==> grants[|grants| - MAX_ATTEMPTS].window + WINDOW <= g.window
    ensures Windowed(grants + [g]) && FiveAWindow(grants + [g])
  {
  }

  lemma ReserveKeepsBudget(s: State)
    requires BudgetInv(s)
    ensures BudgetInv(OnReserve(s))
  {
    if MayReserve(s.row, s.now) {
      var r := Reserved(s.row, s.now);
      var g := Grant(s.now, r.started);
      ReservedIsCounted(s.row, s.now, s.grants);
      AppendGrant(s.grants, g);
    }
  }

  lemma ReservedIsCounted(row: Option<Row>, now: int, grants: seq<Grant>)
    requires Counted(row, now, grants) && MayReserve(row, now)
    ensures var r := Reserved(row, now);
            && Counted(Some(r), now, grants + [Grant(now, r.started)])
            && InWindow(Grant(now, r.started))
            && (forall i :: 0 <= i < |grants| ==>
                  grants[i].window == r.started || grants[i].window + WINDOW <= r.started)
            && (|grants| >= MAX_ATTEMPTS ==> grants[|grants| - MAX_ATTEMPTS].window + WINDOW <= r.started)
  {
  }

  // ---- Accepted steps ----

  predicate Increasing(uses: seq<Use>) {
    forall i, j :: 0 <= i < j < |uses| && uses[i].secret == uses[j].secret ==> uses[i].step < uses[j].step
  }

  predicate UsesInv(s: State) {
    && Increasing(s.uses)
    && (forall i :: 0 <= i < |s.uses| ==> s.uses[i].secret in s.secrets)
    && (s.row.Some? && s.row.value.secret.Some? ==>
          && s.row.value.secret.value in s.secrets
          && forall i :: 0 <= i < |s.uses| && s.uses[i].secret == s.row.value.secret.value ==>
               s.uses[i].step <= s.row.value.lastStep)
  }

  lemma TickKeepsBudget(s: State, now: int)
    requires BudgetInv(s) && now >= s.now
    ensures BudgetInv(s.(now := now))
  {
  }

  /** Secrets and used steps do not count. */
  lemma SecretKeepsBudget(s: State, t: State)
    requires BudgetInv(s) && s.row.Some? && t.row.Some? && t.now == s.now && t.grants == s.grants
    requires t.row.value.attempts == s.row.value.attempts && t.row.value.started == s.row.value.started
    ensures BudgetInv(t)
  {
  }

  lemma SweepKeepsBudget(s: State, settingUp: bool)
    requires BudgetInv(s) && MaySweep(s.row, s.now, settingUp)
    ensures BudgetInv(s.(row := None))
  {
  }

  lemma EraseKeepsBudget(s: State)
    ensures BudgetInv(s.(row := None, grants := []))
  {
  }

  lemma StepKeepsBudget(s: State, e: Event)
    requires BudgetInv(s) && Step(s, e).Some?
    ensures BudgetInv(Step(s, e).value)
  {
    var t := Step(s, e).value;
    match e
    case Tick(now) => TickKeepsBudget(s, now);
    case Reserve => ReserveKeepsBudget(s);
    case Accept(_, _, _) =>
      if t != s {
        SecretKeepsBudget(s, t);
      }
    case Enrol(_, _) =>
      if t != s {
        SecretKeepsBudget(s, t);
      }
    case SweepRow(settingUp) =>
      if t != s {
        SweepKeepsBudget(s, settingUp);
      }
    case Erase => EraseKeepsBudget(s);
  }

  lemma StepKeepsUses(s: State, e: Event)
    requires UsesInv(s) && Step(s, e).Some?
    ensures UsesInv(Step(s, e).value)
  {
  }

  lemma {:induction false} RunKeepsInv(s: State, events: seq<Event>)
    requires Init(s) && Run(s, events).Some?
    ensures BudgetInv(Run(s, events).value) && UsesInv(Run(s, events).value)
  {
    if |events| > 0 {
      var before := events[..|events| - 1];
      RunKeepsInv(s, before);
      StepKeepsBudget(Run(s, before).value, events[|events| - 1]);
      StepKeepsUses(Run(s, before).value, events[|events| - 1]);
    }
  }

  // ---- What every run guarantees ----

  /** Of any six granted attempts in a row, the last is counted in a later window than the first. */
  lemma FiveAttemptsAWindow(s: State, events: seq<Event>, i: nat, j: nat)
    requires Init(s) && Run(s, events).Some?
    requires i + 5 <= j < |Run(s, events).value.grants|
    ensures Run(s, events).value.grants[i].window + 300_000 <= Run(s, events).value.grants[j].window
  {
    RunKeepsInv(s, events);
    var grants := Run(s, events).value.grants;
    var k := i + MAX_ATTEMPTS;
    assert grants[k - MAX_ATTEMPTS].window + WINDOW <= grants[k].window;
  }

  /** No interval of five minutes, ends included, sees more than ten granted attempts. */
  lemma TenAttemptsAnyFiveMinutes(s: State, events: seq<Event>, i: nat, j: nat)
    requires Init(s) && Run(s, events).Some?
    requires i <= j < |Run(s, events).value.grants|
    requires Run(s, events).value.grants[j].at - Run(s, events).value.grants[i].at <= 300_000
    ensures j - i + 1 <= 10
  {
    RunKeepsInv(s, events);
    if j - i >= 2 * MAX_ATTEMPTS {
      var k := i + MAX_ATTEMPTS;
      FiveAttemptsAWindow(s, events, i, k);
      FiveAttemptsAWindow(s, events, k, j);
    }
  }

  /** An attempt is refused only when five were granted in the window that is still running. */
  lemma RefusedOnlyWhenSpent(s: State, events: seq<Event>)
    requires Init(s) && Run(s, events).Some?
    ensures var u := Run(s, events).value;
            !MayReserve(u.row, u.now) <==>
              && |u.grants| >= 5
              && u.grants[|u.grants| - 5].window == u.grants[|u.grants| - 1].window
              && u.grants[|u.grants| - 1].window + 300_000 > u.now
  {
    RunKeepsInv(s, events);
  }

  /**
   * The steps accepted for one secret strictly increase over the whole run, the enrolling code
   * included: no code is accepted twice (section 5.2 of RFC 6238).
   */
  lemma StepsAreUsedOnce(s: State, events: seq<Event>)
    requires Init(s) && Run(s, events).Some?
    ensures Increasing(Run(s, events).value.uses)
  {
    RunKeepsInv(s, events);
  }

  lemma RunSnoc(s: State, events: seq<Event>, e: Event)
    requires Run(s, events).Some?
    ensures Run(s, events + [e]) == Step(Run(s, events).value, e)
  {
    assert (events + [e])[..|events|] == events;
  }

  /** The bound of ten is reached: five attempts late in one window, five at the start of the next. */
  lemma TenAttemptsHappen() returns (s: State, events: seq<Event>)
    ensures Init(s) && Run(s, events).Some?
    ensures var grants := Run(s, events).value.grants;
            |grants| == 10 && grants[9].at - grants[0].at <= 300_000
  {
    s, events := State(None, 0, [], [], {}), [];
    var k := 0;
    while k < 2 * MAX_ATTEMPTS
      invariant 0 <= k <= 2 * MAX_ATTEMPTS && Run(s, events).Some?
      invariant var u := Run(s, events).value;
                && u.now == (if k <= MAX_ATTEMPTS then 0 else WINDOW)
                && |u.grants| == k && (forall i :: 0 <= i < k ==> 0 <= u.grants[i].at <= u.now)
                && (if k == 0 then u.row == None
                    else u.row == Some(Row(if k <= MAX_ATTEMPTS then k else k - MAX_ATTEMPTS, u.now, None, -1)))
    {
      if k == MAX_ATTEMPTS {
        RunSnoc(s, events, Tick(WINDOW));
        events := events + [Tick(WINDOW)];
      }
      RunSnoc(s, events, Reserve);
      events := events + [Reserve];
      k := k + 1;
    }
  }
}
