/** Registration and login (BE/src/services/authService.ts).

    Both handlers check their inputs in a fixed order and answer with one `ApiResponse`. Login
    also changes the user's lockout fields through `incrementFailedLogins` and `resetFailedLogins`.
    bcrypt is abstracted: the stored hash is an input to registration, and whether a password
    matches is an input to login. */
module AuthService {
  import opened Common
  import opened Strings
  import opened Accounts
  import opened Tokens

  const Success: nat := 200
  const CreatedSuccess: nat := 201
  const BadRequest: nat := 400
  const Forbidden: nat := 403
  const InternalServerError: nat := 500

  /** The `message` of each response, as a value; `Text` gives the string the source sends. */
  datatype Message =
    | RequiredFields
    | WeakPassword
    | NameTaken
    | Registered
    | InvalidCredentials
    | AccountLocked(remainingMinutes: Option<nat>)
    | LoginSucceeded
    | InternalError

  function Text(m: Message): string
  {
    match m
    case RequiredFields => "Username and password are required"
    case WeakPassword =>
      "Password must be at least 8 characters and include uppercase, lowercase, number, and special character"
    case NameTaken => "Username is already taken"
    case Registered => "User registered successfully"
    case InvalidCredentials => "Invalid credentials"
    case AccountLocked(None) => "Account is temporarily locked due to too many failed attempts"
    case AccountLocked(Some(n)) =>
      "Account is temporarily locked due to too many failed attempts. Try again in " + NatToString(n) + " minutes"
    case LoginSucceeded => "Login successful"
    case InternalError => "Internal server error"
  }

  /** The `{ success, message, data? }` body together with the HTTP status. */
  datatype ApiResponse = ApiResponse(status: nat, success: bool, message: Message, data: Option<TokenPair>)

  function Failure(status: nat, message: Message): ApiResponse
  {
    ApiResponse(status, false, message, None)
  }

  // ---- Password strength: /^(?=.*[a-z])(?=.*[A-Z])(?=.*\d)(?=.*[@$!%*?&])[A-Za-z\d@$!%*?&]{8,}$/

  predicate IsLower(c: char) { 'a' <= c <= 'z' }
  predicate IsUpper(c: char) { 'A' <= c <= 'Z' }
  predicate IsDigit(c: char) { '0' <= c <= '9' }
  predicate IsSpecial(c: char) { c == '@' || c == '$' || c == '!' || c == '%' || c == '*' || c == '?' || c == '&' }
  predicate IsAllowed(c: char) { IsLower(c) || IsUpper(c) || IsDigit(c) || IsSpecial(c) }

  /** Which character classes a string contains, and whether every character is allowed. */
  datatype CharClasses = CharClasses(lower: bool, upper: bool, digit: bool, special: bool, allAllowed: bool)

  /** One left-to-right pass over the string. */
  function Classify(s: string): (k: CharClasses)
    ensures k.lower <==> exists i :: 0 <= i < |s| && IsLower(s[i])
    ensures k.upper <==> exists i :: 0 <= i < |s| && IsUpper(s[i])
    ensures k.digit <==> exists i :: 0 <= i < |s| && IsDigit(s[i])
    ensures k.special <==> exists i :: 0 <= i < |s| && IsSpecial(s[i])
    ensures k.allAllowed <==> forall i :: 0 <= i < |s| ==> IsAllowed(s[i])
    decreases |s|
  {
    if s == [] then CharClasses(false, false, false, false, true)
    else
      var k := Classify(s[1..]);
      assert forall i :: 1 <= i < |s| ==> s[i] == s[1..][i - 1];
      assert forall j :: 0 <= j < |s[1..]| ==> s[1..][j] == s[j + 1];
      var c := s[0];
      CharClasses(k.lower || IsLower(c), k.upper || IsUpper(c), k.digit || IsDigit(c),
                  k.special || IsSpecial(c), k.allAllowed && IsAllowed(c))
  }

  /** `isStrongPassword`. The regular expression has four look-aheads (one character of each
      class somewhere) and a body that admits only the allowed characters, at least eight of them;
      JavaScript's `\d` is the ASCII digits. */
  predicate IsStrongPassword(password: string)
    ensures IsStrongPassword(password) <==>
              && |password| >= 8
              && (forall i :: 0 <= i < |password| ==> IsAllowed(password[i]))
              && (exists i :: 0 <= i < |password| && IsLower(password[i]))
              && (exists i :: 0 <= i < |password| && IsUpper(password[i]))
              && (exists i :: 0 <= i < |password| && IsDigit(password[i]))
              && (exists i :: 0 <= i < |password| && IsSpecial(password[i]))
  {
    var k := Classify(password);
    |password| >= 8 && k.allAllowed && k.lower && k.upper && k.digit && k.special
  }

  /** One character outside the allowed set is enough to make a password weak. */
  lemma OutsideCharacterIsWeak(password: string, i: nat)
    requires i < |password| && !IsAllowed(password[i])
    ensures !IsStrongPassword(password)
  {
  }

  /** `Abcdef1!` is strong. */
  lemma StrongPasswordExample(p: string)
    requires p == "Abcdef1!"
    ensures IsStrongPassword(p)
  {
    assert |p| == 8;
    assert IsUpper(p[0]) && IsLower(p[1]) && IsDigit(p[6]) && IsSpecial(p[7]);
    assert forall i :: 0 <= i < |p| ==> IsAllowed(p[i]);
  }

  /** `Abcdef1#` is weak, because `#` is not one of `@$!%*?&`. */
  lemma WeakPasswordExample()
    ensures !IsStrongPassword("Abcdef1#")
  {
    var p := "Abcdef1#";
    assert !IsAllowed(p[7]);
  }

  // ---- register

  /** The response of `register` once the name lookup is known: missing fields first, then the
      password strength, then the uniqueness of the name, then 201. */
  function RegisterDecision(userName: Option<string>, password: Option<string>, nameTaken: bool): (r: ApiResponse)
    ensures r.success <==> r.status == CreatedSuccess
    ensures r.status == CreatedSuccess <==>
              Present(userName) && Present(password) && IsStrongPassword(password.value) && !nameTaken
    ensures r.status != CreatedSuccess ==> r.status == BadRequest
    ensures !Present(userName) || !Present(password) ==> r.message == RequiredFields
    ensures Present(userName) && Present(password) && !IsStrongPassword(password.value) ==>
              r.message == WeakPassword
    ensures r.message == NameTaken <==>
              Present(userName) && Present(password) && IsStrongPassword(password.value) && nameTaken
    ensures r.data.None?
  {
    if !Present(userName) || !Present(password) then Failure(BadRequest, RequiredFields)
    else if !IsStrongPassword(password.value) then Failure(BadRequest, WeakPassword)
    else if nameTaken then Failure(BadRequest, NameTaken)
    else ApiResponse(CreatedSuccess, true, Registered, None)
  }

  /** The strength check comes before the lookup: a weak password gets the same answer whether or
      not the name is taken. */
  lemma WeakPasswordHidesTakenName(userName: Option<string>, password: Option<string>)
    requires Present(userName) && Present(password) && !IsStrongPassword(password.value)
    ensures RegisterDecision(userName, password, true) == RegisterDecision(userName, password, false)
  {
  }

  // ---- login

  /** A user row as login sees it. */
  datatype Account = Account(userId: string, lockout: LockoutState)

  /** What login does to the user's lockout fields. */
  datatype LoginEffect = NoEffect | CountFailure | ClearFailures

  datatype LoginOutcome = LoginOutcome(response: ApiResponse, effect: LoginEffect)

  /** The 403 message: the remaining time in whole minutes, rounded up, is added exactly when the
      lock has an expiry that lies in the future (a remaining time of zero minutes is not shown). */
  function LockedMessage(until: Option<nat>, now: nat): (m: Message)
    ensures m.AccountLocked?
    ensures m.remainingMinutes.Some? <==> until.Some? && until.value > now
    ensures m.remainingMinutes.Some? ==> m.remainingMinutes.value == CeilDiv(until.value - now, 60000)
  {
    if until.Some? then
      CeilDivPositive(until.value - now, 60000);
      var minutes := CeilDiv(until.value - now, 60000);
      if minutes > 0 then AccountLocked(Some(minutes)) else AccountLocked(None)
    else AccountLocked(None)
  }

  /** The decision of `login` once the user lookup is known. The order of the checks is: both fields
      present, the user exists, the account is not locked, the password matches; after a match the
      counters are reset even if the JWT secret then turns out to be missing. */
  function LoginDecision(userName: Option<string>, password: Option<string>, account: Option<Account>,
                         passwordMatches: bool, secretSet: bool, now: nat): (o: LoginOutcome)
    ensures !Present(userName) || !Present(password) ==>
              o == LoginOutcome(Failure(BadRequest, RequiredFields), NoEffect)
    ensures o.response == Failure(BadRequest, InvalidCredentials) <==>
              Present(userName) && Present(password) &&
              (account.None? || (!IsLocked(account.value.lockout, now) && !passwordMatches))
    ensures o.response.status == Forbidden <==>
              Present(userName) && Present(password) && account.Some? && IsLocked(account.value.lockout, now)
    ensures o.response.status == Forbidden ==>
              o.response.message == LockedMessage(account.value.lockout.accountLockedUntil, now)
    ensures o.response.status == Success <==>
              Present(userName) && Present(password) && account.Some? &&
              !IsLocked(account.value.lockout, now) && passwordMatches && secretSet
    ensures o.response.status == Success ==>
              o.response.success && o.response.data == Some(IssuePair(account.value.userId))
    ensures o.response.status == InternalServerError <==>
              Present(userName) && Present(password) && account.Some? &&
              !IsLocked(account.value.lockout, now) && passwordMatches && !secretSet
    ensures o.effect == CountFailure <==>
              Present(userName) && Present(password) && account.Some? &&
              !IsLocked(account.value.lockout, now) && !passwordMatches
    ensures o.effect == ClearFailures <==>
              Present(userName) && Present(password) && account.Some? &&
              !IsLocked(account.value.lockout, now) && passwordMatches
    ensures o.response.success <==> o.response.status == Success
  {
    if !Present(userName) || !Present(password) then
      LoginOutcome(Failure(BadRequest, RequiredFields), NoEffect)
    else if account.None? then
      LoginOutcome(Failure(BadRequest, InvalidCredentials), NoEffect)
    else if IsLocked(account.value.lockout, now) then
      LoginOutcome(Failure(Forbidden, LockedMessage(account.value.lockout.accountLockedUntil, now)), NoEffect)
    else if !passwordMatches then
      LoginOutcome(Failure(BadRequest, InvalidCredentials), CountFailure)
    else if !secretSet then
      LoginOutcome(Failure(InternalServerError, InternalError), ClearFailures)
    else
      LoginOutcome(ApiResponse(Success, true, LoginSucceeded, Some(IssuePair(account.value.userId))), ClearFailures)
  }

  /** The lockout fields after login's effect. */
  function ApplyEffect(s: LockoutState, e: LoginEffect, now: nat): LockoutState
  {
    match e
    case NoEffect => s
    case CountFailure => RecordFailure(s, now)
    case ClearFailures => NewAccount
  }

  /** An unknown name and a wrong password are answered identically. */
  lemma NoUserEnumeration(userName: Option<string>, password: Option<string>, account: Account,
                          secretSet: bool, now: nat)
    requires !IsLocked(account.lockout, now)
    ensures LoginDecision(userName, password, None, false, secretSet, now).response ==
            LoginDecision(userName, password, Some(account), false, secretSet, now).response
  {
  }

  /** A locked account refuses even the right password, and the refusal changes nothing. */
  lemma LockedRefusesAnyPassword(userName: Option<string>, password: Option<string>, account: Account,
                                 secretSet: bool, now: nat)
    requires Present(userName) && Present(password) && IsLocked(account.lockout, now)
    ensures LoginDecision(userName, password, Some(account), true, secretSet, now).response.status == Forbidden
    ensures LoginDecision(userName, password, Some(account), true, secretSet, now) ==
            LoginDecision(userName, password, Some(account), false, secretSet, now)
    ensures LoginDecision(userName, password, Some(account), true, secretSet, now).effect == NoEffect
  {
  }

  /** The lockout fields after a run of logins with a wrong password at the given times. */
  function WrongPasswordRun(userName: Option<string>, password: Option<string>, account: Account,
                            times: seq<nat>): Account
    decreases |times|
  {
    if times == [] then account
    else
      var o := LoginDecision(userName, password, Some(account), false, true, times[0]);
      WrongPasswordRun(userName, password,
                       account.(lockout := ApplyEffect(account.lockout, o.effect, times[0])), times[1..])
  }

  /** Starting below the threshold and unlocked, exactly as many wrong-password logins as it takes
      to reach five failures leave the account locked until 30 minutes after the last of them. */
  lemma {:induction false} WrongPasswordsLock(userName: Option<string>, password: Option<string>,
                                              account: Account, times: seq<nat>)
    requires Present(userName) && Present(password)
    requires !account.lockout.accountLocked
    requires account.lockout.failedLoginAttempts < MaxFailedAttempts
    requires |times| == MaxFailedAttempts - account.lockout.failedLoginAttempts
    ensures WrongPasswordRun(userName, password, account, times).lockout ==
            LockoutState(MaxFailedAttempts, true, Some(times[|times| - 1] + LockDurationMs))
    ensures WrongPasswordRun(userName, password, account, times).userId == account.userId
    decreases |times|
  {
    var o := LoginDecision(userName, password, Some(account), false, true, times[0]);
    assert o.effect == CountFailure;
    var next := account.(lockout := ApplyEffect(account.lockout, o.effect, times[0]));
    if |times| > 1 {
      WrongPasswordsLock(userName, password, next, times[1..]);
    }
  }

  /** Five wrong passwords on a new account lock it: until the lock expires, a login with the right
      password is refused with 403 and the counters stay as they are. */
  lemma FiveFailuresLockNewAccount(userName: Option<string>, password: Option<string>, userId: string,
                                   times: seq<nat>, later: nat, secretSet: bool)
    requires Present(userName) && Present(password)
    requires |times| == 5
    requires times[4] <= later <= times[4] + LockDurationMs
    ensures var locked := WrongPasswordRun(userName, password, Account(userId, NewAccount), times);
            var o := LoginDecision(userName, password, Some(locked), true, secretSet, later);
            o.response.status == Forbidden && o.effect == NoEffect
  {
    WrongPasswordsLock(userName, password, Account(userId, NewAccount), times);
  }

  /** The users table, keyed by `user_name`. */
  class UserDirectory {
    var byName: map<string, User>

    ghost predicate Valid()
      reads this
    {
      forall n :: n in byName ==> byName[n].userName == n
    }

    constructor ()
      ensures Valid() && byName == map[]
    {
      byName := map[];
    }

    /** `register`: `passwordHash` stands for `bcrypt.hash(password, 10)` and `newId` for the
        generated `user_id`. Only a 201 adds a row; existing rows are untouched. */
    method Register(userName: Option<string>, password: Option<string>, passwordHash: string, newId: string)
      returns (r: ApiResponse)
      requires Valid()
      modifies this
      ensures Valid()
      ensures r == RegisterDecision(userName, password, userName.Some? && userName.value in old(byName))
      ensures r.status != CreatedSuccess ==> byName == old(byName)
      ensures r.status == CreatedSuccess ==>
                && byName.Keys == old(byName.Keys) + {userName.value}
                && fresh(byName[userName.value])
                && byName[userName.value].userId == newId
                && byName[userName.value].passwordHash == passwordHash
                && byName[userName.value].Lockout() == NewAccount
      ensures forall n :: n in old(byName) ==> n in byName && byName[n] == old(byName[n])
    {
      if !Present(userName) || !Present(password) {
        return Failure(BadRequest, RequiredFields);
      }
      if !IsStrongPassword(password.value) {
        return Failure(BadRequest, WeakPassword);
      }
      if userName.value in byName {
        return Failure(BadRequest, NameTaken);
      }
      var user := new User(newId, userName.value, passwordHash);
      byName := byName[userName.value := user];
      r := ApiResponse(CreatedSuccess, true, Registered, None);
    }

    /** `login`: looks the name up, then follows `LoginDecision`, calling the user's
        `incrementFailedLogins` or `resetFailedLogins` as it says. No other row changes. */
    method Login(userName: Option<string>, password: Option<string>, passwordMatches: bool,
                 secretSet: bool, now: nat) returns (r: ApiResponse)
      requires Valid()
      modifies byName.Values
      ensures Valid()
      ensures var account := if userName.Some? && userName.value in byName
                             then Some(Account(byName[userName.value].userId, old(byName[userName.value].Lockout())))
                             else None;
              var o := LoginDecision(userName, password, account, passwordMatches, secretSet, now);
              && r == o.response
              && (account.Some? && Present(userName) ==>
                    && byName[userName.value].Lockout() == ApplyEffect(account.value.lockout, o.effect, now)
                    && byName[userName.value].lastLogin ==
                       (if o.effect == ClearFailures then Some(now) else old(byName[userName.value].lastLogin)))
      ensures forall n :: n in byName && !(Present(userName) && n == userName.value) ==>
                byName[n].Lockout() == old(byName[n].Lockout()) && byName[n].lastLogin == old(byName[n].lastLogin)
    {
      if !Present(userName) || !Present(password) {
        return Failure(BadRequest, RequiredFields);
      }
      if userName.value !in byName {
        return Failure(BadRequest, InvalidCredentials);
      }
      var user := byName[userName.value];
      if user.IsAccountLocked(now) {
        return Failure(Forbidden, LockedMessage(user.accountLockedUntil, now));
      }
      if !passwordMatches {
        user.IncrementFailedLogins(now);
        return Failure(BadRequest, InvalidCredentials);
      }
      user.ResetFailedLogins(now);
      if !secretSet {
        return Failure(InternalServerError, InternalError);
      }
      r := ApiResponse(Success, true, LoginSucceeded, Some(IssuePair(user.userId)));
    }
  }

  /** On an empty table, registering any name with a strong password and then logging in with the
      same password succeeds, and both tokens carry the new user's id. */
  method RegisterThenLogin(userName: string, password: string, passwordHash: string, newId: string, now: nat)
    returns (registered: ApiResponse, loggedIn: ApiResponse)
    requires userName != "" && IsStrongPassword(password)
    ensures registered.status == CreatedSuccess
    ensures loggedIn.status == Success && loggedIn.data == Some(IssuePair(newId))
  {
    var users := new UserDirectory();
    registered := users.Register(Some(userName), Some(password), passwordHash, newId);
    NewAccountUnlocked(now);
    loggedIn := users.Login(Some(userName), Some(password), true, true, now);
  }
}
