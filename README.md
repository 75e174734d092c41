# A verified model of the auth and chat core of ng-tuan/auth

This project models, in Dafny, the part of the `ng-tuan/auth` backend and frontend that decides who may
call the API and what the chat service does with rooms and messages. It covers these pieces:

- **Rate limiting** (`rate_limiter.dfy`, module `RateLimiting`). The fixed-window limiter of
  `BE/src/utils/rateLimiter.ts` keeps one table at module level. That table is shared by the login
  limiter and the register limiter that `createRateLimiter` builds in
  `BE/src/controllers/authController.ts`.
- **Account lockout** (`user.dfy`, module `Accounts`).
  - The `User` model's lockout fields and its three helpers: `incrementFailedLogins`,
    `resetFailedLogins` and `isAccountLocked`.
  - The helpers are a class whose methods update the fields.
  - They are specified by pure functions on a `LockoutState`.
- **Registration and login** (`auth_service.dfy`, module `AuthService`).
  - `isStrongPassword` is modelled as the meaning of its regular expression.
  - `register` and `login` are pure decision functions, with the order of their checks and their
    status codes.
  - A `UserDirectory` class holds the users table and runs both handlers against it.
- **Token handling**. The backend access middleware (`auth_middleware.dfy`), the refresh handler
  (`refresh_token_middleware.dfy`) and the older middleware of `src/`
  (`legacy_auth_middleware.dfy`) are each a function over three inputs:
  - whether `JWT_SECRET` is set;
  - how `jwt.verify` ends;
  - how the user lookup ends.

  `middleware_comparison.dfy` proves how the three classify the same situations.
- **Rooms and messages** (`room.dfy`, `message.dfy`, `json.dfy`).
  - The validation `Room.create` and `Message.create` apply.
  - The `members` column, stored as JSON text. `json.dfy` models `JSON.stringify` and `JSON.parse`
    on lists of strings.
- **The chat service** (`chat_service.dfy`, module `Chat`).
  - `ChatService` is a class over a `Database` (rooms and messages tables) and a `Server` whose
    `emitted` log records every Socket.IO event with its target.
  - Every method and every socket handler that `handleConnection` registers is a method with its
    full new state.
  - A few scenario methods run a fresh service end to end.
- **Frontend configuration** (`frontend_config.dfy`): `API_URL`, the endpoint table, `getUrl`,
  `getHeaders` and `getCredentials` of `fe/src/config/index.ts`.

`common.dfy` holds `Option`, JavaScript truthiness of a string field, and `Math.ceil` of an integer
quotient. `strings.dfy` holds `String.prototype.split` on one character and the decimal rendering of
a number.

Where the code and its comments or documentation disagree, the model follows the code:

- **Login window.** The login limiter's window is 5 minutes (`5 * 60 * 1000`). Its comment and its
  429 message both say 15.
- **Shared table.** Both limiters count in one table. A registration attempt therefore uses up a
  login attempt from the same address (`RateLimiting.SharedTableScenario`).
- **Joining.** `joinRoom` appends without deduplicating: joining twice lists the user twice.
- **Unknown rooms.** For an unknown room, `joinRoom` quietly does nothing, and the `join_room`
  handler still joins the socket and announces `room_joined`.
- **Room creator.** `createRoom` does not make the creator a member.
- **Sending.** `sendMessage` does not check that the room exists. Its handler announces each message
  twice, as `newMessage` and then as `new_message`.
- **Reading.** `markMessageAsRead` updates a `read` attribute, filtered by a `userId` column. The
  message model declares neither, so the call never sets a message's `status`. Whether it resolves
  (and `message_read` goes to every client) or rejects (and only the calling socket gets `error`)
  depends on how the ORM and the database treat the undeclared attribute and filter. The model
  leaves that outcome to a `dbFails` argument, and `OnMessageRead` states both branches.

## Model

| member | source | states |
|---|---|---|
| Common.CeilDiv | BE/src/utils/rateLimiter.ts:59 | `Math.ceil(a / b)` on integers: the least `r` with `r * b >= a` |
| Common.CeilDivNonNegative | BE/src/utils/rateLimiter.ts:59 | a non-negative dividend gives a non-negative quotient |
| Common.CeilDivPositive | BE/src/services/authService.ts:107-110 | the rounded-up quotient is positive exactly when the dividend is |
| Strings.Split | BE/src/middlewares/authMiddleware.ts:24 | `split` on one character: at least one part, no part contains the separator, and joining the parts gives the string back |
| Strings.SplitJoin | BE/src/middlewares/authMiddleware.ts:24 | splitting a join of separator-free parts gives the parts back |
| Strings.JoinHead | BE/src/middlewares/authMiddleware.ts:24 | a character in front of the first part is a character in front of the joined string |
| Strings.SplitNoSeparator | BE/src/middlewares/authMiddleware.ts:24 | a string without the separator splits into itself alone |
| Strings.SplitAfterSegment | BE/src/middlewares/authMiddleware.ts:24-29 | a separator-free segment followed by the separator splits off as the first part |
| Strings.SplitHasSecondPart | src/middlewares/authMiddleware.ts:15 | there is a second part exactly when the separator occurs |
| Strings.DigitChar | BE/src/services/authService.ts:111 | a digit below ten becomes the character of that digit |
| Strings.NatToString | BE/src/services/authService.ts:111 | a number in a template literal: non-empty decimal digits, no leading zero, and their value is the number |
| RateLimiting.ClientKey | BE/src/utils/rateLimiter.ts:31 | the shared table never gets an empty key |
| RateLimiting.ClientKeysDistinct | BE/src/utils/rateLimiter.ts:31 | clients with different usable addresses are counted in different records |
| RateLimiting.MissingAddressSharesUnknown | BE/src/utils/rateLimiter.ts:31 | every request without a usable address is counted in one record, shared with a client whose address is literally `unknown` |
| RateLimiting.AfterCall | BE/src/utils/rateLimiter.ts:34-51 | a missing or ended window (ended strictly before `now`) is replaced by a new one counting this call, ending `windowMs` later; otherwise the count goes up by one and the end stays; the window always covers `now` |
| RateLimiting.Verdict | BE/src/utils/rateLimiter.ts:53-72 | the call passes exactly when the count is at most `max`; it then gets the limit, a non-negative remaining count and the reset time in epoch seconds rounded up; otherwise it gets 429, the limiter's message and the seconds left rounded up |
| RateLimiting.Touch | BE/src/utils/rateLimiter.ts:34-51 | only the caller's entry of the shared table changes |
| RateLimiting.Replay | BE/src/utils/rateLimiter.ts:28-76 | one decision per call in a run of calls |
| RateLimiting.RetryAfterNonNegative | BE/src/utils/rateLimiter.ts:54-59 | a throttled call never reports a negative `retryAfter` |
| RateLimiting.ReplayInsideWindow | BE/src/utils/rateLimiter.ts:43-54 | inside one window, each call passes exactly while the running count is at most `max`; throttled calls do not extend the window |
| RateLimiting.FirstMaxCallsPass | BE/src/utils/rateLimiter.ts:34-61 | inside the window opened by the first call, exactly the first `max` calls pass |
| RateLimiting.RateLimitStore.constructor | BE/src/utils/rateLimiter.ts:18 | the shared table starts empty |
| RateLimiting.RateLimiter.constructor | BE/src/utils/rateLimiter.ts:25-26 | a limiter keeps its options and the shared table |
| RateLimiting.RateLimiter.Handle | BE/src/utils/rateLimiter.ts:28-76 | one request: the shared table becomes `Touch` of the old table, and the decision is the `Verdict` of the caller's new entry |
| RateLimiting.CreateAuthLimiters | BE/src/controllers/authController.ts:9-19 | the login limiter (5 calls per 5 minutes) and the register limiter (10 per hour) share one table |
| RateLimiting.SharedTableScenario | BE/src/controllers/authController.ts:9-19 | one registration and four login attempts from one address leave the fifth login throttled, with the registration window's 3600 seconds as `retryAfter` |
| Accounts.RecordFailure | BE/src/models/User.ts:41-52 | a failure adds one to the counter; from the fifth failure on, the account is locked until 30 minutes after `now`; below that, the lock fields stay |
| Accounts.NewAccountUnlocked | BE/src/models/User.ts:108-121 | an account with the column defaults is not locked |
| Accounts.FailureAtThresholdLocks | BE/src/models/User.ts:44-49 | a failure that reaches five locks the account exactly up to 30 minutes later |
| Accounts.LockedForeverWithoutExpiry | BE/src/models/User.ts:64-73 | a set flag without an expiry locks at every time |
| Accounts.RelockAfterExpiry | BE/src/models/User.ts:41-73 | an expired lock does not reset the counter, so the next failure relocks at once for another 30 minutes |
| Accounts.User.constructor | BE/src/models/User.ts:108-121 | a new row has no failures, no lock, no expiry and no last login |
| Accounts.User.IncrementFailedLogins | BE/src/models/User.ts:41-52 | the lockout fields become `RecordFailure` of the old ones; the last login stays |
| Accounts.User.ResetFailedLogins | BE/src/models/User.ts:55-61 | counter, flag and expiry are cleared, and the last login becomes `now` |
| Accounts.User.IsAccountLocked | BE/src/models/User.ts:64-73 | locked exactly when the flag is set and the expiry is absent or not before `now` |
| Tokens.IssuePair | BE/src/services/authService.ts:136-143 | both tokens carry the user's id; the access token lives 72 hours and the refresh token 7 days |
| AuthService.Classify | BE/src/services/authService.ts:18-19 | which character classes occur, and whether every character is allowed |
| AuthService.IsStrongPassword | BE/src/services/authService.ts:16-21 | strong exactly when it has at least eight characters, all from `[A-Za-z0-9@$!%*?&]`, with at least one each of lower case, upper case, digit and special character |
| AuthService.OutsideCharacterIsWeak | BE/src/services/authService.ts:19 | one character outside the allowed set makes a password weak |
| AuthService.StrongPasswordExample | BE/src/services/authService.ts:19 | `Abcdef1!` is strong |
| AuthService.WeakPasswordExample | BE/src/services/authService.ts:19 | `Abcdef1#` is weak |
| AuthService.RegisterDecision | BE/src/services/authService.ts:32-71 | 201 exactly when both fields are present, the password is strong and the name is free; otherwise 400; missing fields are reported first, then a weak password; "already taken" exactly when only the name is in the way |
| AuthService.WeakPasswordHidesTakenName | BE/src/services/authService.ts:43-54 | with a weak password the answer does not reveal whether the name is taken |
| AuthService.LockedMessage | BE/src/services/authService.ts:102-113 | the 403 message shows the minutes left, rounded up, exactly when the lock expires in the future |
| AuthService.LoginDecision | BE/src/services/authService.ts:79-150 | 400 for missing fields; the same 400 "Invalid credentials" for an unknown user or a wrong password; 403 exactly when the account is locked; 200 with the user's token pair exactly when unlocked, matching and the secret is set; 500 when the secret is missing; a failure is counted exactly on a wrong password to an unlocked account; the counters are cleared exactly on a matching one |
| AuthService.NoUserEnumeration | BE/src/services/authService.ts:90-128 | an unknown name and a wrong password to an unlocked account get identical responses |
| AuthService.LockedRefusesAnyPassword | BE/src/services/authService.ts:99-116 | a locked account answers 403 whether or not the password matches, and the state does not change |
| AuthService.WrongPasswordsLock | BE/src/services/authService.ts:118-128 | from an unlocked account, the wrong-password logins that bring the count to five leave it locked until 30 minutes after the last one |
| AuthService.FiveFailuresLockNewAccount | BE/src/services/authService.ts:99-128 | after five wrong passwords on a new account, even the right password gets 403 until the lock expires, and changes nothing |
| AuthService.UserDirectory.constructor | BE/src/models/User.ts:76-136 | the users table starts empty |
| AuthService.UserDirectory.Register | BE/src/services/authService.ts:32-77 | the response is `RegisterDecision` for the current table; only a 201 adds a row, with the new id, the given hash and default lockout fields; existing rows are untouched |
| AuthService.UserDirectory.Login | BE/src/services/authService.ts:79-156 | the response is `LoginDecision` for the looked-up row; that row's lockout fields get the decision's effect, and its last login changes exactly when the counters are cleared; no other row changes |
| AuthService.RegisterThenLogin | BE/src/services/authService.ts:32-150 | on an empty table, registering with a strong password and logging in with it succeeds, with tokens for the new id |
| AuthMiddleware.ExtractToken | BE/src/middlewares/authMiddleware.ts:20-30 | an absent or empty header gives no token; a token comes only from `Bearer <token>`, and it has no space |
| AuthMiddleware.ExtractBearerToken | BE/src/middlewares/authMiddleware.ts:20-30 | `Bearer ` followed by a space-free token gives that token |
| AuthMiddleware.ExtractTokenExactly | BE/src/middlewares/authMiddleware.ts:20-30 | a token is extracted exactly from `Bearer <token>` with a space-free token |
| AuthMiddleware.MalformedHeaders | BE/src/middlewares/authMiddleware.ts:24-27 | a doubled space, another scheme and a lower-case scheme give no token |
| AuthMiddleware.AuthenticateToken | BE/src/middlewares/authMiddleware.ts:41-110 | no token gives 401 "Authentication required"; the request goes on, with the found user, exactly when the token is present, the secret set, the token valid and the user found; expired, invalid and other failures give distinct 401s; a missing user gives 404; a missing secret or a failed lookup gives 401 "Authentication failed" |
| AuthMiddleware.EmptyBearerTokenRequired | BE/src/middlewares/authMiddleware.ts:20-56 | `Bearer ` with an empty token is treated as no token |
| RefreshTokenMiddleware.RefreshToken | BE/src/middlewares/refreshTokenMiddleware.ts:16-88 | no token gives 400; 200 with a new pair for the user exactly when secret, token and user are all in order; an expired token and an invalid one give distinct 401s; a missing user gives 404; a missing secret, another verification error or a failed lookup gives 500 |
| RefreshTokenMiddleware.MissingTokenSkipsVerification | BE/src/middlewares/refreshTokenMiddleware.ts:20-28 | without a token, the answer depends on nothing else |
| RefreshTokenMiddleware.ExpiredAndInvalidDiffer | BE/src/middlewares/refreshTokenMiddleware.ts:68-79 | expired and invalid refresh tokens both get 401, with different messages |
| LegacyAuthMiddleware.SecondSegment | src/middlewares/authMiddleware.ts:15 | there is a segment exactly when the header contains a space, and the segment has no space; `SchemeIgnored` and `SecondOfMany` pin its value as the text between the first and the second space (or the end) |
| LegacyAuthMiddleware.SchemeIgnored | src/middlewares/authMiddleware.ts:15 | whatever word stands before the first space, the text after it is taken as the token |
| LegacyAuthMiddleware.SecondOfMany | src/middlewares/authMiddleware.ts:15 | with more spaces, the token is the text between the first and the second space, whatever follows: `Bearer x y` yields `x` |
| LegacyAuthMiddleware.BasicSchemeExample | src/middlewares/authMiddleware.ts:15 | `Basic abc` yields the token `abc` |
| LegacyAuthMiddleware.LegacyAuthenticate | src/middlewares/authMiddleware.ts:10-34 | no token gives 401 "Access denied"; the request goes on exactly when secret, token and user are in order; a missing user gives 404; every other failure gives 400 "Invalid token" |
| MiddlewareComparison.BearerTokenReadAlike | src/middlewares/authMiddleware.ts:15 | every header the backend middleware accepts gives the older middleware the same token |
| MiddlewareComparison.SameSuccesses | src/middlewares/authMiddleware.ts:15-30 | with a well-formed bearer header, the two access middlewares let through exactly the same requests, for the same user |
| MiddlewareComparison.ExpiredTokenClassification | BE/src/middlewares/authMiddleware.ts:79-86 | an expired token: 401 from the access middleware, 401 with another message from the refresh handler, 400 from the older middleware |
| MiddlewareComparison.MissingSecretClassification | BE/src/middlewares/refreshTokenMiddleware.ts:8-14 | a missing secret: 401 from the access middleware, 500 from the refresh handler, 400 from the older middleware |
| MiddlewareComparison.OtherSchemeOnlyLegacyAccepts | src/middlewares/authMiddleware.ts:15-30 | a valid token under another scheme is refused by the backend middleware but let through by the older one |
| MiddlewareComparison.SchemeDetermined | BE/src/middlewares/authMiddleware.ts:24-25 | the word before the first space is determined by the header |
| Json.SkipWhitespace | BE/src/models/Room.ts:56 | the rest never starts with whitespace, and is the whole text when that starts with something else |
| Json.HexValue | BE/src/models/Room.ts:56 | a hexadecimal character has a value below 16 |
| Json.HexDigitValue | BE/src/models/Room.ts:56 | the hex digit written for a value reads back as that value |
| Json.ParseEscape | BE/src/models/Room.ts:56 | an escape sequence consumes input |
| Json.ParseStringBody | BE/src/models/Room.ts:56 | a string body consumes input |
| Json.EscapeCharParses | BE/src/models/Room.ts:54-63 | each character's escape reads back as that character |
| Json.ShortEscapeParses | BE/src/models/Room.ts:54-63 | a two-character escape reads back as its character |
| Json.UnicodeEscapeParses | BE/src/models/Room.ts:54-63 | a `\u00xx` escape of a control character reads back as that character |
| Json.EscapeStringParses | BE/src/models/Room.ts:54-63 | an escaped string followed by a closing quote reads back as the string, and the rest is left |
| Json.LastElementParses | BE/src/models/Room.ts:54-63 | a quoted string followed by `]` reads as a one-element list |
| Json.CommaStep | BE/src/models/Room.ts:56 | a literal directly followed by a comma is put in front of the list parsed after it |
| Json.NextElementParses | BE/src/models/Room.ts:54-63 | a quoted string followed by a comma reads as that string in front of the rest of the list |
| Json.ElementsParse | BE/src/models/Room.ts:54-63 | the encoded elements of a non-empty list followed by `]` read back as the list |
| Json.Stringify | BE/src/models/Room.ts:58-62 | the written text is bracketed, and is `[]` exactly for the empty list; `ParseStringify` and `StringifyInjective` state that it reads back and loses nothing |
| Json.Parse | BE/src/models/Room.ts:56 | an accepted text is an array literal (`[` after any whitespace); `ParseStringify` states that it inverts `Stringify`, `WhitespaceAccepted` and `SolidusEscapeAccepted` that it takes JSON the writer never produces |
| Json.ParseStringify | BE/src/models/Room.ts:54-63 | `JSON.parse(JSON.stringify(v))` gives `v` for every list of strings |
| Json.StringifyInjective | BE/src/models/Room.ts:58-62 | different lists are written as different texts |
| Json.EscapeStringHasNoControl | BE/src/models/Room.ts:58-62 | written strings contain no control character |
| Json.WhitespaceAccepted | BE/src/models/Room.ts:56 | insignificant whitespace is accepted: ` [ ] ` reads as the empty list |
| Json.SolidusEscapeAccepted | BE/src/models/Room.ts:56 | the escape `\/`, which the writer never produces, reads as `/` |
| Rooms.ParseRoomType | BE/src/models/Room.ts:42-45 | a type is accepted exactly when it is `public` or `private`, and it maps back to its name |
| Rooms.GetMembers | BE/src/models/Room.ts:54-57 | a null or empty raw value reads as no members, and a text written by `JSON.stringify(v)` reads as `v`; `MembersRoundTrip` and `MissingMembersEmpty` use it |
| Rooms.SetMembers | BE/src/models/Room.ts:58-63 | the stored text is a bracketed array, and is the column default exactly for null or the empty list; `SetNullStoresDefault` and `SetMembersInjective` add that null and `[]` are one text and different lists two |
| Rooms.DefaultMembersEmpty | BE/src/models/Room.ts:53-57 | the column default `'[]'` reads as no members |
| Rooms.MissingMembersEmpty | BE/src/models/Room.ts:54-57 | a null or empty stored value reads as no members |
| Rooms.SetNullStoresDefault | BE/src/models/Room.ts:58-62 | writing null stores the same text as writing the empty list, which is the default |
| Rooms.MembersRoundTrip | BE/src/models/Room.ts:54-63 | reading after writing gives back the list written (the empty list for null) |
| Rooms.SetMembersInjective | BE/src/models/Room.ts:58-62 | different member lists are stored differently |
| Rooms.NewRoom | BE/src/models/Room.ts:31-64 | a row is created exactly when name and creator are present and the type is one of the two values; it keeps them, gets the id, and its members read as the list given, or as empty when none is given |
| Messages.ParseMessageType | BE/src/models/Message.ts:39-42 | a type is accepted exactly when it is `text`, `image` or `file` |
| Messages.ParseDeliveryStatus | BE/src/models/Message.ts:43-46 | a left-out status is `sent`; a given one is accepted exactly when it is `sent`, `delivered` or `read`, and maps back to its name |
| Messages.CreateMessage | BE/src/models/Message.ts:20-57 | a row is created exactly when room, sender and content are present, the type is valid and a given status is valid; it keeps them, gets the id, and has the given status, `sent` when none is given |
| Chat.Without | BE/src/services/chatService.ts:55 | the filtered list does not contain the user and keeps every other member |
| Chat.WithoutAppend | BE/src/services/chatService.ts:55 | filtering keeps the order: it distributes over concatenation |
| Chat.WithoutAbsent | BE/src/services/chatService.ts:55 | a list without the user is left as it is |
| Chat.WithoutIdempotent | BE/src/services/chatService.ts:51-59 | leaving twice is leaving once |
| Chat.JoinThenLeave | BE/src/services/chatService.ts:41-59 | joining and then leaving removes the user altogether, earlier entries included |
| Chat.Joined | BE/src/services/chatService.ts:44-46 | the stored members read as the old ones with the user appended, and only the members change |
| Chat.Left | BE/src/services/chatService.ts:54-56 | the stored members read as the old ones without the user, and only the members change |
| Chat.JoinTwice | BE/src/services/chatService.ts:41-49 | joining twice lists the user twice more |
| Chat.JoinedThenLeft | BE/src/services/chatService.ts:41-59 | after joining then leaving, the members are the old ones without the user |
| Chat.LeftTwice | BE/src/services/chatService.ts:51-59 | leaving twice changes the members as leaving once |
| Chat.InRoom | BE/src/services/chatService.ts:37-39 | the listed messages are exactly the stored ones of that room (listed in storage order, one order the unordered query may return) |
| Chat.InRoomAppend | BE/src/services/chatService.ts:62-70 | in the model's storage-order listing, a stored message is listed last for its room and changes no other room's list |
| Chat.Database.constructor | BE/src/models/Room.ts:31-83 | both tables (`rooms` here, `messages` in BE/src/models/Message.ts:20-57) start empty |
| Chat.Server.constructor | BE/src/services/chatService.ts:14-16 | no event has been sent |
| Chat.ClientSocket.constructor | BE/src/services/chatService.ts:83-84 | a socket keeps its id and user and starts in its own room only |
| Chat.ChatService.constructor | BE/src/services/chatService.ts:9-16 | the service keeps its server, with an empty cache and no statuses |
| Chat.ChatService.CreateRoom | BE/src/services/chatService.ts:19-27 | a validated row with a free id is stored in the table and the cache and returned, and its members read as the list given, or as empty when none is given; otherwise nothing changes |
| Chat.ChatService.GetMessages | BE/src/services/chatService.ts:37-39 | the messages returned are exactly the stored ones of that room |
| Chat.ChatService.JoinRoom | BE/src/services/chatService.ts:41-49 | succeeds exactly when the database answers and the members can be read; an existing room gets the user appended and `userJoined` goes to it; an unknown room, or a failure, changes nothing |
| Chat.ChatService.LeaveRoom | BE/src/services/chatService.ts:51-59 | the same with every occurrence of the user filtered out and `userLeft` |
| Chat.ChatService.SendMessage | BE/src/services/chatService.ts:62-70 | a validated message with a free id is stored, its room's listing gains exactly that message (as a multiset) and no other room's listing changes, and `newMessage` goes to the room; otherwise nothing changes |
| Chat.ChatService.UpdateUserStatus | BE/src/services/chatService.ts:77-80 | the status is overwritten and the change goes to every client |
| Chat.ChatService.OnConnect | BE/src/services/chatService.ts:83-87 | a connection marks the user online, for every client to see |
| Chat.ChatService.OnJoinRoom | BE/src/services/chatService.ts:90-98 | on success the socket joins, the room is updated as by `JoinRoom`, and `room_joined` follows, even for an unknown room; on failure only the socket gets the error |
| Chat.ChatService.OnLeaveRoom | BE/src/services/chatService.ts:100-108 | on success the socket leaves, the room is updated as by `LeaveRoom`, and `room_left` follows; on failure only the socket gets the error |
| Chat.ChatService.OnSendMessage | BE/src/services/chatService.ts:111-118 | a stored message goes to its room twice, as `newMessage` then `new_message`; otherwise only the socket gets the error and nothing is stored |
| Chat.ChatService.OnMessageRead | BE/src/services/chatService.ts:120-127 | success goes to every client; failure only to the socket |
| Chat.ChatService.OnUpdateStatus | BE/src/services/chatService.ts:130-132 | any status the client sends is stored and broadcast |
| Chat.ChatService.OnDisconnect | BE/src/services/chatService.ts:135-137 | a disconnect marks the user offline, for every client to see |
| Chat.JoinTwiceScenario | BE/src/services/chatService.ts:41-49 | in a new room, the same user joining twice is listed twice after the members the room was created with |
| Chat.JoinUnknownRoomScenario | BE/src/services/chatService.ts:90-98 | joining a room that does not exist stores nothing, yet the socket joins and `room_joined` is sent after the online status |
| Chat.SendMessageScenario | BE/src/services/chatService.ts:111-118 | one message sent over a socket reaches its room as `newMessage` and as `new_message`, with the same payload, and is the room's one listed message, with status `sent` unless the client sent another |
| Chat.PresenceScenario | BE/src/services/chatService.ts:77-137 | connect, set a status, disconnect: three broadcasts, and the user ends offline |
| Chat.FailedJoinScenario | BE/src/services/chatService.ts:90-98 | a failing join tells only the socket and changes neither the room's members nor the socket's rooms |
| FrontendConfig.ApiUrl | fe/src/config/index.ts:1-2 | the environment value unless it is unset or empty, then `http://localhost:3000`; never empty |
| FrontendConfig.SplitKey | fe/src/config/index.ts:67 | a dotted key splits back into its category and its entry |
| FrontendConfig.KeySplits | fe/src/config/index.ts:58-71 | every accepted key splits into a category of the table and one of its entries |
| FrontendConfig.TableShape | fe/src/config/index.ts:37-48 | every path is `/api/` followed by its category, a slash and its entry |
| FrontendConfig.AuthShape | fe/src/config/index.ts:38-42 | each `auth` entry's path is `/api/auth/` followed by the entry |
| FrontendConfig.ChatShape | fe/src/config/index.ts:43-47 | each `chat` entry's path is `/api/chat/` followed by the entry |
| FrontendConfig.TableInjective | fe/src/config/index.ts:37-48 | no two entries share a path |
| FrontendConfig.GetUrl | fe/src/config/index.ts:66-73 | the key `c.e` gives `/api/c/e`, after the base URL when the full URL is asked for, which is the default; `PathFollowsKey`, `FullUrlIsBasePlusPath` and `PathsDistinct` state it key by key |
| FrontendConfig.FullUrlIsBasePlusPath | fe/src/config/index.ts:66-73 | by default `getUrl` gives the base URL followed by the path alone |
| FrontendConfig.PathFollowsKey | fe/src/config/index.ts:66-72 | the key `c.e` names the path `/api/c/e` |
| FrontendConfig.PathsDistinct | fe/src/config/index.ts:58-72 | the six keys name six different paths, all under `/api/` |
| FrontendConfig.RefreshKeyAccepted | fe/src/config/index.ts:58-64 | `auth.refresh` is one of the accepted keys |
| FrontendConfig.RefreshUrl | fe/src/config/index.ts:41 | `auth.refresh` names `/api/auth/refresh` |
| FrontendConfig.DefaultRefreshUrl | fe/src/config/index.ts:1-2 | without `NEXT_PUBLIC_API_URL`, the full refresh URL is `http://localhost:3000/api/auth/refresh` |
| FrontendConfig.GetHeaders | fe/src/config/index.ts:75 | no contract of its own; `RequestDefaults` states its values |
| FrontendConfig.GetCredentials | fe/src/config/index.ts:76 | no contract of its own; `RequestDefaults` states its value |
| FrontendConfig.RequestDefaults | fe/src/config/index.ts:49-76 | requests send and accept JSON, give `http://localhost:3001` as origin, and include credentials |

## Left out

- **Password hashing.** bcrypt is not modelled. The stored hash is an input to registration, and
  whether a password matches is an input to login.
- **JWT.** Signing, signatures and expiry checking are not modelled. A token is its `userId` claim
  and its lifetime. How `jwt.verify` ends and how `User.findByPk` ends are inputs.
- **Clock.** The current time is a `now` argument. Login reads the clock more than once; the model
  uses one instant for all those reads.
- **Logging.** The `logger` calls are left out; they do not change any answer.
- **HTTP.** The Express request and response objects are reduced to the values that decide the
  answer: the status, the body and the rate-limit header values. `next()` becomes a `Proceed` or
  `Allowed` value.
- **Non-string body values.** The body fields `user_name`, `password` and `refreshToken` are
  modelled as strings that may be absent. A JSON number, object or list sent there is not modelled:
  in the source, registration's `regex.test` converts such a password to a string before testing
  it, and `bcrypt.hash` at registration and `bcrypt.compare` at login throw on a non-string one,
  which both answer with 500.
- AuthService.UserDirectory.Register, AuthService.UserDirectory.Login: a database call that
  throws (for example a duplicate name inserted by a concurrent registration) is answered with 500
  by the source. The model's users table never fails, so that path is not modelled.
- AuthService.UserDirectory.Register: the "Registration failed" branch is not modelled, because
  `User.create` never resolves to null.
- **User-name collation.** The database's comparison rules for `user_name` are not modelled.
  Depending on the collation, MySQL may treat names that differ only in case as equal; the model
  compares names exactly.
- **Numbers.** JavaScript numbers are unbounded integers in the model. Times are milliseconds. The
  53-bit limit of exact integers is not modelled.
- **Row fields.** Timestamps (`created_at`, `updated_at`, `createdAt`, `lastActivity`), the
  `beforeUpdate` hook and the message `metadata` JSON are not modelled. No contract depends on them.
- **JSON.** `JSON.parse` is modelled on texts that are lists of strings. Any other JSON text reads
  as a failure (`None`) and makes `joinRoom` and `leaveRoom` throw, where the source does not always
  fail:
  - the texts `null`, `false`, `0` and `""` parse to falsy values, which `room.members || []` turns
    into no members, so join and leave succeed;
  - a non-empty JSON string is spread into its characters by join, while leave throws;
  - a list holding other values, such as numbers or nested lists, is joined and filtered as it is;
  - other numbers, `true` and objects make both throw, as in the model.
- **Surrogate escapes.** Every `\u` escape in the surrogate range `D800` to `DFFF` is refused,
  because a string here is a sequence of Unicode scalar values. That covers lone halves and also
  both halves of a valid pair such as `\ud83d\ude00`, which `JSON.parse` combines into one
  character.
- **Database storage.** How the MySQL driver stores the `members` text in the JSON column, and reads
  it back, is not modelled. The raw column value is the text the setter wrote.
- **Concurrency.** The socket handlers and the HTTP handlers are async. Interleavings are not
  modelled: each handler runs to completion. In the source, two joins in flight can lose an update.
- **Socket.IO.** Delivery, meaning which clients receive an event sent to a room, is not modelled;
  the `emitted` log records each event with its target. The automatic leaving of every room when a
  socket disconnects is not modelled either. A socket's room set is kept only so that joining and
  leaving are visible.
- Chat.ChatService.MarkMessageAsRead: its outcome is the `dbFails` argument and it writes no row;
  how the ORM and the database handle an update of the undeclared `read` attribute, filtered by
  the undeclared `userId` column, is not modelled. `OnMessageRead` states what each outcome sends.
- Chat.ChatService.GetRooms, Chat.ChatService.GetRoom: plain reads of the rooms table, with no
  contract of their own. `CreateRoom` states what `GetRoom` then returns.
- Chat.InRoom, Chat.ChatService.SendMessage: `Message.findAll` is called without an `order`, so
  the source promises no order for a room's messages. The model lists them in storage order, but
  `SendMessage` promises the new listing only as a multiset: the old messages plus the new one.
- Rooms.NewRoom, Chat.ChatService.CreateRoom: `members` is modelled as a list of strings when given.
  A client may send any JSON value there (a string, a number, an object), which the setter would
  store and the getter read back as that value; the model does not represent those.
- Rooms.NewRoom, Messages.CreateMessage: the `id` argument is the generated UUID or one the client
  sent; a client-sent `lastActivity`, timestamp or `metadata` is not modelled.
- Messages.CreateMessage: an explicit `status: null` is stored as null by the source, since the
  column allows null; the model treats it like a left-out status, which defaults to `sent`.
- **Room cache.** The service's `rooms` map is written by `createRoom` and never read. The model
  keeps it, but no property depends on it.
- **Frontend.** The frontend's components and pages are not modelled. `NEXT_PUBLIC_API_URL`, read
  once when the module loads, is an argument.
