/** The account-lockout fields of the User model (BE/src/models/User.ts) and the three helper
    methods that change or read them. Times are milliseconds since the epoch. */
module Accounts {
  import opened Common

  /** Failed attempts after which the account is locked. */
  const MaxFailedAttempts: nat := 5
  /** How long a lock lasts: 30 minutes. */
  const LockDurationMs: nat := 30 * 60 * 1000

  /** The three lockout fields of a user row. */
  datatype LockoutState = LockoutState(failedLoginAttempts: nat, accountLocked: bool, accountLockedUntil: Option<nat>)

  /** The column defaults: no failures, not locked, no expiry. */
  const NewAccount: LockoutState := LockoutState(0, false, None)

  /** Whether the account is locked at `now`: the flag is set and the lock has no expiry or has not
      expired yet (an expiry equal to `now` still locks). */
  predicate IsLocked(s: LockoutState, now: nat)
  {
    s.accountLocked && (s.accountLockedUntil.None? || now <= s.accountLockedUntil.value)
  }

  /** The lockout fields after one failed attempt at `now`. */
  function RecordFailure(s: LockoutState, now: nat): (t: LockoutState)
    ensures t.failedLoginAttempts == s.failedLoginAttempts + 1
    ensures t.failedLoginAttempts >= MaxFailedAttempts ==>
              t.accountLocked && t.accountLockedUntil == Some(now + LockDurationMs)
    ensures t.failedLoginAttempts < MaxFailedAttempts ==>
              t.accountLocked == s.accountLocked && t.accountLockedUntil == s.accountLockedUntil
  {
    var n := s.failedLoginAttempts + 1;
    if n >= MaxFailedAttempts then LockoutState(n, true, Some(now + LockDurationMs))
    else s.(failedLoginAttempts := n)
  }

  /** A new user is not locked. */
  lemma NewAccountUnlocked(now: nat)
    ensures !IsLocked(NewAccount, now)
  {
  }

  /** A failure that reaches the threshold locks the account for exactly the next 30 minutes. */
  lemma FailureAtThresholdLocks(s: LockoutState, now: nat, later: nat)
    requires s.failedLoginAttempts + 1 >= MaxFailedAttempts
    ensures IsLocked(RecordFailure(s, now), later) <==> later <= now + LockDurationMs
  {
  }

  /** A set flag without an expiry locks the account at every time. */
  lemma LockedForeverWithoutExpiry(s: LockoutState, now: nat)
    requires s.accountLocked && s.accountLockedUntil.None?
    ensures IsLocked(s, now)
  {
  }

  /** Expiry does not clear the counter: once a lock has expired, the next failure relocks at once. */
  lemma RelockAfterExpiry(s: LockoutState, now: nat)
    requires s.failedLoginAttempts >= MaxFailedAttempts
    requires s.accountLockedUntil.Some? && s.accountLockedUntil.value < now
    ensures !IsLocked(s, now)
    ensures IsLocked(RecordFailure(s, now), now)
    ensures RecordFailure(s, now).accountLockedUntil == Some(now + LockDurationMs)
  {
  }

  /** The user row, with the fields the lockout methods change. */
  class User {
    const userId: string
    const userName: string
    const passwordHash: string
    var lastLogin: Option<nat>
    var failedLoginAttempts: nat
    var accountLocked: bool
    var accountLockedUntil: Option<nat>

    /** A row as `User.create` stores it: the counter and flag take their defaults. */
    constructor (userId: string, userName: string, passwordHash: string)
      ensures this.userId == userId && this.userName == userName && this.passwordHash == passwordHash
      ensures Lockout() == NewAccount && lastLogin.None?
    {
      this.userId := userId;
      this.userName := userName;
      this.passwordHash := passwordHash;
      lastLogin := None;
      failedLoginAttempts := 0;
      accountLocked := false;
      accountLockedUntil := None;
    }

    function Lockout(): LockoutState
      reads this
    {
      LockoutState(failedLoginAttempts, accountLocked, accountLockedUntil)
    }

    /** `incrementFailedLogins`: one more failure, and a 30-minute lock from the fifth on. */
    method IncrementFailedLogins(now: nat)
      modifies this
      ensures Lockout() == RecordFailure(old(Lockout()), now)
      ensures lastLogin == old(lastLogin)
    {
      failedLoginAttempts := failedLoginAttempts + 1;
      if failedLoginAttempts >= MaxFailedAttempts {
        accountLocked := true;
        accountLockedUntil := Some(now + LockDurationMs);
      }
    }

    /** `resetFailedLogins`: clears the counter, the flag and the expiry and records the login time. */
    method ResetFailedLogins(now: nat)
      modifies this
      ensures Lockout() == NewAccount
      ensures lastLogin == Some(now)
    {
      failedLoginAttempts := 0;
      accountLocked := false;
      accountLockedUntil := None;
      lastLogin := Some(now);
    }

    /** `isAccountLocked`, evaluated at `now`. */
    function IsAccountLocked(now: nat): (locked: bool)
      reads this
      ensures locked == IsLocked(Lockout(), now)
    {
      if !accountLocked then false
      else if accountLockedUntil.Some? && accountLockedUntil.value < now then false
      else accountLocked
    }
  }
}
