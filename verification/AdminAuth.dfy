/** The admin side of server/src/modules/auth/auth.service.ts: password logins with a
    lockout, and token versions that revoke old tokens. Each handler is one step. */
module AdminAuth {
  import opened Outcomes
  import opened Text

  const MAX_FAILED_LOGIN_ATTEMPTS: nat := 5
  const LOCKOUT_MS: int := 900_000

  /** The `admin_auth_state` row; the lock time is in milliseconds. */
  datatype AuthRow = AuthRow(tokenVersion: nat, failedLoginAttempts: nat, lockedUntil: Option<int>)

  const NEW_ROW := AuthRow(1, 0, None)

  datatype State = State(row: Option<AuthRow>, adminPassword: string, storedHash: string)

  datatype LoginOutcome =
    | NotConfigured | PasswordMissing | Locked | WrongPassword
    | Granted(tokenVersion: nat)

  function RowOf(s: State): AuthRow { if s.row.Some? then s.row.value else NEW_ROW }

  /** The hash a password is compared with, `""` if none is configured. */
  function PasswordHash(hash: string -> string, s: State): string {
    if s.adminPassword != "" then hash(s.adminPassword) else s.storedHash
  }

  /** The three forms of the password the handler accepts. */
  predicate PasswordMatches(hash: string -> string, s: State, password: string) {
    || s.adminPassword == password
    || PasswordHash(hash, s) == hash(password)
    || PasswordHash(hash, s) == password
  }

  predicate IsLocked(row: AuthRow, now: int) { row.lockedUntil.Some? && row.lockedUntil.value > now }

  function LoginOutcomeOf(hash: string -> string, s: State, password: string, now: int): LoginOutcome {
    if PasswordHash(hash, s) == "" then NotConfigured
    else if password == "" then PasswordMissing
    else if IsLocked(RowOf(s), now) then Locked
    else if PasswordMatches(hash, s, password) then Granted(RowOf(s).tokenVersion)
    else WrongPassword
  }

  function FailedRow(row: AuthRow, now: int): AuthRow {
    if row.failedLoginAttempts + 1 < MAX_FAILED_LOGIN_ATTEMPTS
    then row.(failedLoginAttempts := row.failedLoginAttempts + 1)
    else AuthRow(row.tokenVersion + 1, row.failedLoginAttempts + 1, Some(now + LOCKOUT_MS))
  }

  function ClearedRow(row: AuthRow): AuthRow { row.(failedLoginAttempts := 0, lockedUntil := None) }

  datatype Event =
    | Login(password: string, now: int)
    | UpdatePassword(newPassword: string)
    | Logout(isAdmin: bool)
    | PasskeyLogin

  function Step(hash: string -> string, s: State, e: Event): State {
    match e
    case Login(password, now) =>
      (match LoginOutcomeOf(hash, s, password, now)
       case NotConfigured | PasswordMissing => s
       case Locked => s.(row := Some(RowOf(s)))
       case WrongPassword => s.(row := Some(FailedRow(RowOf(s), now)))
       case Granted(_) => s.(row := Some(ClearedRow(RowOf(s)))))
    case UpdatePassword(newPassword) =>
      State(Some(AuthRow(RowOf(s).tokenVersion + 1, 0, None)), Trim(newPassword), hash(Trim(newPassword)))
    case Logout(isAdmin) =>
      if isAdmin then s.(row := Some(RowOf(s).(tokenVersion := RowOf(s).tokenVersion + 1))) else s
    case PasskeyLogin => s.(row := Some(RowOf(s)))
  }

  class AuthService {
    var row: Option<AuthRow>
    var adminPassword: string
    var storedHash: string
    const hash: string -> string

    ghost function View(): State
      reads this
    {
      State(row, adminPassword, storedHash)
    }

    constructor (hash: string -> string, adminPassword: string, storedHash: string)
      ensures View() == State(None, adminPassword, storedHash) && this.hash == hash
    {
      this.hash, this.adminPassword, this.storedHash, this.row := hash, adminPassword, storedHash, None;
    }

    method GetAdminAuthState() returns (state: AuthRow)
      modifies this`row
      ensures state == old(RowOf(View())) && row == Some(state)
    {
      if row.None? {
        row := Some(AuthRow(1, 0, None));
      }
      state := row.value;
    }

    method ValidateUser(password: string, now: int) returns (outcome: LoginOutcome)
      modifies this`row
      ensures outcome == LoginOutcomeOf(hash, old(View()), password, now)
      ensures View() == Step(hash, old(View()), Login(password, now))
    {
      var configuredHash := if adminPassword != "" then hash(adminPassword) else storedHash;
      if configuredHash == "" {
        return NotConfigured;
      }
      if password == "" {
        return PasswordMissing;
      }
      var state := GetAdminAuthState();
      if state.lockedUntil.Some? && state.lockedUntil.value > now {
        return Locked;
      }
      if adminPassword != password && configuredHash != hash(password) && configuredHash != password {
        RecordFailedLogin(state, now);
        return WrongPassword;
      }
      row := Some(state.(failedLoginAttempts := 0, lockedUntil := None));
      return Granted(state.tokenVersion);
    }

    method RecordFailedLogin(state: AuthRow, now: int)
      modifies this`row
      ensures row == Some(FailedRow(state, now))
    {
      var failed := state.failedLoginAttempts + 1;
      if failed >= MAX_FAILED_LOGIN_ATTEMPTS {
        row := Some(AuthRow(state.tokenVersion + 1, failed, Some(now + LOCKOUT_MS)));
        return;
      }
      row := Some(state.(failedLoginAttempts := failed));
    }

    method UpdateAdminPassword(newPassword: string) returns (tokenVersion: nat)
      modifies this
      ensures View() == Step(hash, old(View()), UpdatePassword(newPassword))
      ensures tokenVersion == RowOf(View()).tokenVersion
    {
      var normalized := Trim(newPassword);
      adminPassword := normalized;
      storedHash := hash(normalized);
      var state := GetAdminAuthState();
      row := Some(AuthRow(state.tokenVersion + 1, 0, None));
      tokenVersion := state.tokenVersion + 1;
    }

    method EndSession(isAdmin: bool)
      modifies this`row
      ensures View() == Step(hash, old(View()), Logout(isAdmin))
    {
      if isAdmin {
        var state := GetAdminAuthState();
        row := Some(state.(tokenVersion := state.tokenVersion + 1));
      }
    }

    method AssertAdminTokenVersion(tokenVersion: Option<nat>) returns (valid: bool)
      modifies this`row
      ensures valid <==> tokenVersion.Some? && Accepts(old(View()), tokenVersion.value)
      ensures row == Some(old(RowOf(View())))
    {
      var state := GetAdminAuthState();
      valid := tokenVersion.Some? && tokenVersion.value != 0 && tokenVersion.value == state.tokenVersion;
    }
  }

  predicate Accepts(s: State, tokenVersion: nat) { tokenVersion != 0 && tokenVersion == RowOf(s).tokenVersion }

  // ---- runs ----

  function Run(hash: string -> string, s: State, events: seq<Event>): State {
    if events == [] then s else Step(hash, Run(hash, s, events[..|events| - 1]), events[|events| - 1])
  }

  /** The times of the password checks that failed since the last success or update. */
  function Failures(hash: string -> string, s: State, events: seq<Event>): seq<int> {
    if events == [] then [] else
      var init := events[..|events| - 1];
      NextFailures(hash, Run(hash, s, init), events[|events| - 1], Failures(hash, s, init))
  }

  function NextFailures(hash: string -> string, s: State, e: Event, times: seq<int>): seq<int> {
    match e
    case UpdatePassword(_) => []
    case Login(password, now) =>
      (match LoginOutcomeOf(hash, s, password, now)
       case Granted(_) => []
       case WrongPassword => times + [now]
       case _ => times)
    case _ => times
  }

  /** From the fifth on, failures are a lockout apart. */
  ghost predicate Spaced(times: seq<int>) {
    forall k | MAX_FAILED_LOGIN_ATTEMPTS <= k < |times| :: times[k] >= times[k - 1] + LOCKOUT_MS
  }

  ghost predicate Clean(s: State) { RowOf(s).failedLoginAttempts == 0 && RowOf(s).lockedUntil == None }

  ghost predicate Counted(row: AuthRow, times: seq<int>) {
    && row.failedLoginAttempts == |times|
    && row.lockedUntil == (if |times| >= MAX_FAILED_LOGIN_ATTEMPTS then Some(times[|times| - 1] + LOCKOUT_MS) else None)
    && Spaced(times)
  }

  lemma StepKeepsCount(hash: string -> string, s: State, e: Event, times: seq<int>)
    requires Counted(RowOf(s), times)
    ensures Counted(RowOf(Step(hash, s, e)), NextFailures(hash, s, e, times))
  {
    hide PasswordHash, PasswordMatches;
    if e.Login? && LoginOutcomeOf(hash, s, e.password, e.now).WrongPassword? {
      assert RowOf(Step(hash, s, e)) == FailedRow(RowOf(s), e.now);
      assert |times| >= MAX_FAILED_LOGIN_ATTEMPTS ==> e.now >= times[|times| - 1] + LOCKOUT_MS;
    }
  }

  /** The counter is the number of failures since the last reset, and a lock exists
      exactly from five of them on and ends one lockout after the last. */
  lemma {:induction false} CounterAndLock(hash: string -> string, s: State, events: seq<Event>)
    requires Clean(s)
    ensures var row := RowOf(Run(hash, s, events)); var times := Failures(hash, s, events);
      && row.failedLoginAttempts == |times|
      && row.lockedUntil == (if |times| >= 5 then Some(times[|times| - 1] + 900_000) else None)
      && forall k | 5 <= k < |times| :: times[k] >= times[k - 1] + 900_000
  {
    hide Step, NextFailures;
    if events == [] {
      assert Counted(RowOf(s), []);
    } else {
      var init := events[..|events| - 1];
      CounterAndLock(hash, s, init);
      StepKeepsCount(hash, Run(hash, s, init), events[|events| - 1], Failures(hash, s, init));
    }
  }

  lemma {:induction false} SpacedAddsUp(times: seq<int>, k: nat)
    requires Spaced(times) && MAX_FAILED_LOGIN_ATTEMPTS <= k <= |times|
    ensures times[k - 1] >= times[4] + (k - 5) * LOCKOUT_MS
  {
    if k > MAX_FAILED_LOGIN_ATTEMPTS { SpacedAddsUp(times, k - 1); }
  }

  /** The rate bound: whatever is tried in between, and under any clock at all, the
      k-th failed check since the last reset comes at least k-5 lockouts after the fifth. */
  lemma LockoutRateBound(hash: string -> string, s: State, events: seq<Event>, k: nat)
    requires Clean(s) && 5 <= k <= |Failures(hash, s, events)|
    ensures var times := Failures(hash, s, events); times[k - 1] >= times[4] + (k - 5) * 900_000
  {
    CounterAndLock(hash, s, events);
    SpacedAddsUp(Failures(hash, s, events), k);
  }

  // ---- who is let in ----

  predicate NoUpdate(events: seq<Event>) { forall e <- events :: !e.UpdatePassword? }

  lemma {:induction false} PasswordStays(hash: string -> string, s: State, events: seq<Event>)
    requires NoUpdate(events)
    ensures var t := Run(hash, s, events); t.adminPassword == s.adminPassword && t.storedHash == s.storedHash
  {
    hide LoginOutcomeOf;
    if events != [] {
      assert events[|events| - 1] in events;
      assert forall e <- events[..|events| - 1] :: e in events;
      PasswordStays(hash, s, events[..|events| - 1]);
    }
  }

  /** After a password was set and until it is set again, whatever else happens: a login
      that no lock stops succeeds with exactly the trimmed password, its hash, and texts
      of the same hash. */
  lemma LoginAfterUpdate(hash: string -> string, s: State, password: string, events: seq<Event>, q: string, now: int)
    requires Trim(password) != "" && hash(Trim(password)) != "" && NoUpdate(events)
    ensures var t := Run(hash, Step(hash, s, UpdatePassword(password)), events);
      var (p, row) := (Trim(password), RowOf(t));
      LoginOutcomeOf(hash, t, q, now) ==
        if q == "" then PasswordMissing
        else if row.lockedUntil.Some? && now < row.lockedUntil.value then Locked
        else if q == p || q == hash(p) || hash(q) == hash(p) then Granted(row.tokenVersion)
        else WrongPassword
  {
    hide Run, Trim;
    PasswordStays(hash, Step(hash, s, UpdatePassword(password)), events);
  }

  /** From the start, with a configured password `p` or else a stored hash. */
  lemma LoginFromStart(hash: string -> string, p: string, stored: string, events: seq<Event>, q: string, now: int)
    requires NoUpdate(events)
    ensures var t := Run(hash, State(None, p, stored), events);
      var (h, row) := (if p != "" then hash(p) else stored, RowOf(t));
      LoginOutcomeOf(hash, t, q, now) ==
        if h == "" then NotConfigured
        else if q == "" then PasswordMissing
        else if row.lockedUntil.Some? && now < row.lockedUntil.value then Locked
        else if q == p || q == h || hash(q) == h then Granted(row.tokenVersion)
        else WrongPassword
  {
    hide Run, Trim;
    PasswordStays(hash, State(None, p, stored), events);
  }

  /** Before anything happened there is no lock and no failure, and the version is one. */
  lemma StartIsClean(p: string, stored: string)
    ensures RowOf(State(None, p, stored)) == AuthRow(1, 0, None) && Clean(State(None, p, stored))
  {
  }

  /** What a right and a wrong password leave behind. */
  lemma LoginLeaves(hash: string -> string, s: State, q: string, now: int)
    ensures var (row, row') := (RowOf(s), RowOf(Step(hash, s, Login(q, now))));
      match LoginOutcomeOf(hash, s, q, now)
      case Granted(version) => version == row.tokenVersion && row' == AuthRow(row.tokenVersion, 0, None)
      case WrongPassword =>
        row' == if row.failedLoginAttempts < 4
                then AuthRow(row.tokenVersion, row.failedLoginAttempts + 1, row.lockedUntil)
                else AuthRow(row.tokenVersion + 1, row.failedLoginAttempts + 1, Some(now + 900_000))
      case _ => row' == row
  {
    hide PasswordHash, PasswordMatches;
  }

  // ---- token versions ----

  /** The steps that revoke tokens: a password update, an admin logout, and a failed
      login that is at least the fifth. */
  predicate Revokes(hash: string -> string, s: State, e: Event) {
    || e.UpdatePassword?
    || (e.Logout? && e.isAdmin)
    || (e.Login? && LoginOutcomeOf(hash, s, e.password, e.now).WrongPassword?
        && RowOf(s).failedLoginAttempts + 1 >= MAX_FAILED_LOGIN_ATTEMPTS)
  }

  function Revocations(hash: string -> string, s: State, events: seq<Event>): nat {
    if events == [] then 0 else
      var init := events[..|events| - 1];
      Revocations(hash, s, init) + if Revokes(hash, Run(hash, s, init), events[|events| - 1]) then 1 else 0
  }

  lemma {:induction false} VersionCountsRevocations(hash: string -> string, s: State, events: seq<Event>)
    ensures RowOf(Run(hash, s, events)).tokenVersion == RowOf(s).tokenVersion + Revocations(hash, s, events)
  {
    if events != [] {
      hide PasswordHash, PasswordMatches;
      VersionCountsRevocations(hash, s, events[..|events| - 1]);
    }
  }

  /** From the first row: the version is one plus all revocations; a token signed in a
      state is accepted later exactly when nothing was revoked since; and a token that
      is once refused is refused for ever. */
  lemma TokenLivesUntilRevocation(hash: string -> string, adminPassword: string, storedHash: string,
                                  before: seq<Event>, later: seq<Event>, evenLater: seq<Event>)
    ensures var start := State(None, adminPassword, storedHash);
      var signed := Run(hash, start, before);
      var token := RowOf(signed).tokenVersion;
      var after := Run(hash, signed, later);
      && token == 1 + Revocations(hash, start, before)
      && (Accepts(after, token) <==> Revocations(hash, signed, later) == 0)
      && (!Accepts(after, token) ==> !Accepts(Run(hash, after, evenLater), token))
  {
    var start := State(None, adminPassword, storedHash);
    var signed := Run(hash, start, before);
    VersionCountsRevocations(hash, start, before);
    VersionCountsRevocations(hash, signed, later);
    VersionCountsRevocations(hash, Run(hash, signed, later), evenLater);
  }
}
