# Verified models of the backend's concurrent infrastructure

This project models the parts of the game backend in which several things happen at once, and proves
what holds for every order in which they can happen:

- **Accounts and refresh tokens.** GuestLogin, GoogleLogin, Refresh and Logout, for any number of
  requests, as one store call per step over Redis (a slot per user, with expiry) and PostgreSQL (three
  tables with their constraints, and transactions).
- **The Google key cache.** `getKey` and `fetchLocked` for any number of calls under one read/write
  lock, with a clock and an endpoint that answers anything or fails; down to base64url and big-endian
  integers.
- **The broker connection.** `New`, `reconnectLoop`, `Channel` and one `Close`, one step per access to
  shared state, with connections that drop at any moment; the consumer's settlement loop; the
  declaration of the broker topology.
- **Texts that carry identity.** Redis keys, UUID text, access tokens, and the middleware and handler
  that pass a user id on.

Each protocol is a step system: a state, one `Next` per event, and `Run` over a sequence of events in
any order (`Runs` holds what all of them share, `Turns` what all threads written as code share). What the
original does by changing fields is written again as classes and methods (`AuthService`, `AuthHandler`,
`JwksCache`, `BrokerConnection`, `Consumer`, `Topology`). A method is given a list of turns: what everybody else does before each of its steps, and how the step ends. Its
contract says that the object ends exactly where the step system leads (`Took`), so the theorems about
runs are theorems about these methods (`CallIsARun`, `TurnsAreARun`).

## Assumptions

- `rand.Read` never repeats a 32-byte value. In the model a repeated draw fails the request, except in
  `NonInterference` and `OwnRequests`, where the absence of repeats is a hypothesis (`DrawsNeverRepeat`).
- The clock does not go backwards.
- A redis key with an expiry is gone once the clock reaches it. A write that reports an error has either
  taken effect by then or never will.
- PostgreSQL enforces PRIMARY KEY, UNIQUE, REFERENCES and VARCHAR lengths. An INSERT that clashes with
  an uncommitted row of another transaction waits; waiting is not being scheduled, and giving up is a
  failed step. UUIDs are not assumed to be fresh.
- A message authentication code names the key it was made with. The compact form of a token decodes to
  the token it was encoded from, contains something, and is otherwise arbitrary (`Lawful`).
- The JWT library checks "exp" and "nbf" when they are present and does not look at "iat". `uuid.Parse` reads
  the plain text, a `urn:uuid:` text, a text in braces (any two characters in their place) and 32 bare digits.
- The broker adds one to the total x-death count of a message for every effective
  `Nack(requeue=false)`, and nothing else changes that total (`BrokerCounts`).
- `NotifyClose` on a connection that is already closed fires at once. `Close` is called at most once.
- The base64 decoder skips carriage returns and line feeds and does not look at the spare low bits of a
  short last group; a big integer that does not fit 64 bits is narrowed to its low 64. Go's `int` has 64
  bits.
- A declaration with properties equal to those of an existing entity succeeds and changes nothing, one
  with different properties is refused, and a binding needs both its ends. Nobody else changes the
  topology during a run of `DeclareAll`.

## Where the code and its comments differ

- internal/auth/service/auth_service.go:165-166 says that of simultaneous refreshes with one token one
  fails. GET, DEL and SET are separate calls, so two requests whose GETs both come before either DEL both
  succeed (`TokenRace.RedeemedTwice`). When one user's requests do not overlap the comment is right
  (`RefreshTheorems.RedeemedAtMostOnce`). For all schedules, of two requests with one token, of which one is
  about to make its GET, both can still succeed if and only if the token is live at that moment
  (`TokenIntervals.BothCanSucceedIffLive`).
- internal/rabbitmq/connection.go:69-70 says that Close closes the connection and stops the loop.
  If the loop is past its closed check when closed is set, with a dial to make or a new connection to
  install, that connection is left open and the loop waits on it until the broker drops it. This is
  exactly when it can happen (`ConnectionTheorems.CloseLeavesAConnectionOpenIff`, with a run to that moment
  in `CloseCanLeaveAConnectionOpen`); otherwise the loop stops (`CloseStopsTheLoop`).
- internal/auth/google/jwks.go:104 narrows the exponent to 64 bits: keys are rebuilt exactly if and only
  if it is below 2^63 (`JwkSet.RebuiltIff`).

## Model

| member | source | states |
|---|---|---|
| AccountTheorems.WalletsAndReferences | internal/auth/repository/user_repo.go:72-161 | after any run every committed user has exactly one wallet with zero balances, and every wallet and provider row names a committed user |
| AccountTheorems.UsernamesUnique | db/migrations/000001_create_users.up.sql:2-3 | usernames and user ids are unique in every reachable state, although the name check runs outside the transaction |
| AccountTheorems.ChosenNameWasAbsent | internal/auth/repository/user_repo.go:55-64 | a request only goes on with a name that one of its own checks saw absent |
| AccountTheorems.AtMostFiveChecks | internal/auth/repository/user_repo.go:53-66 | no request ever checks more than five names |
| AccountTheorems.GoogleIdentityIsInjective | internal/auth/service/auth_service.go:121-161 | over a whole run two Google logins reach the same user if and only if Google named the same subject |
| AccountTheorems.GuestsHaveNoProvider | internal/auth/service/auth_service.go:93-114 | no provider row names a guest account: neither the one a guest login acts for nor one whose commit took effect although the login was told it failed |
| AccountTheorems.NoOrphans | internal/auth/repository/user_repo.go:106-161 | each committed user was made by one login: a guest without provider rows, or the only user ever made for its subject with exactly one provider row, however many first logins raced |
| AccountTheorems.ProviderRowsAreVerified | internal/auth/repository/user_repo.go:135-147 | every provider row carries the subject and e-mail that Google verified for the login that made its user, with an empty e-mail kept as none |
| LoginTheorems.LookupBindsIffRegistered | internal/auth/service/auth_service.go:130-150 | in every reachable world a look-up that works binds the login to a user if and only if a committed row ties the Google subject to that user, whatever the e-mail, and goes on to sign up if and only if no row ties the subject to anyone |
| LoginTheorems.ReturningUserGetsIn | internal/auth/service/auth_service.go:121-161 | from every reachable world the login of a registered Google user, with working calls and an unused draw, ends with a pair for that user whose refresh token is live, and changes no row |
| LoginTheorems.CollisionsAreRetried | internal/auth/repository/user_repo.go:53-66 | after n taken names, n below five, the request is at its attempt n; after five it has failed; nothing else has changed |
| LoginTheorems.GuestGetsIn | internal/auth/service/auth_service.go:97-114 | from every reachable world a guest login with working calls, at most four taken names before a free one and unused ids ends with a pair for a new user, and adds exactly the user and one empty wallet |
| LoginTheorems.NewGoogleUserGetsIn | internal/auth/repository/user_repo.go:112-161 | so does the first login of a Google subject, which also adds exactly the provider row with the verified subject and e-mail |
| CallOutcomes.ErrorIsFinal | internal/auth/service/auth_service.go:97-204 | over any run, the first call of a request that reports an error, whether or not it took effect, leaves it nothing but the rollback and the error answer |
| CallOutcomes.LiveTokenIsExchanged | internal/auth/service/auth_service.go:170-195 | from every reachable world a Refresh with a live token, working calls and an unused draw ends with a new live pair for the same user; the old token is no longer live and no row changes |
| CallOutcomes.TokenText | internal/auth/service/auth_service.go:55-64 | a refresh token is its draw in 64 lower-case hexadecimal digits, most significant first |
| RefreshSlots.SlotsBelongToUsers | internal/auth/service/auth_service.go:66-91 | every refresh slot, and every request about to delete, mint or store a token, belongs to a committed user |
| RefreshSlots.RunTokens | internal/auth/service/auth_service.go:68-91 | across all slots and requests no token is held twice, and every held token was drawn |
| TokenIntervals.OneInterval | internal/auth/service/auth_service.go:170-195 | a token that is live at two moments was live at every moment between: deleted, overwritten or expired, it never returns |
| TokenIntervals.OneOwner | internal/auth/repository/auth_repo.go:27-39 | over a whole run a token is live for one user only |
| TokenIntervals.NextDead | internal/auth/service/auth_service.go:68-91 | no event brings a token back that has left its slot |
| TokenIntervals.LiveUntilExpiry | internal/auth/repository/auth_repo.go:31-39 | helper fact: with nothing but time passing, a stored token is live exactly until its time to live is over, and for ever if that is zero |
| TokenIntervals.AcceptedInsideInterval | internal/auth/service/auth_service.go:171-182 | every Refresh that was accepted made its GET while the token it presented was live in its user's slot |
| TokenIntervals.LateRefreshFails | internal/auth/service/auth_service.go:171-182 | a Refresh that has not made its GET when the interval is over can only fail, whatever follows |
| TokenIntervals.CanSucceedIffLiveAtGet | internal/auth/service/auth_service.go:170-195 | a Refresh about to make its GET can still succeed if and only if its token is live |
| TokenIntervals.BothCanSucceedIffLive | internal/auth/service/auth_service.go:163-195 | the exact condition for two attempts: in every reachable world, of two requests with one token, one about to make its GET and the other too or already accepted, both can still succeed if and only if the token is live |
| TokenRace.RedeemedTwice | internal/auth/service/auth_service.go:165-195 | a concrete run in which two overlapping requests redeem one token |
| OneSlotSpec.RedeemedOnce | internal/auth/service/auth_service.go:163-168 | the one-slot specification redeems no token twice |
| OneSlotSpec.LogoutHolds | internal/auth/service/auth_service.go:197-204 | in the specification nothing is redeemed between a logout and the next store for that user |
| RefreshRefinement.RunRefines | internal/auth/service/auth_service.go:170-204 | every run without overlapping requests of one user is a legal history of the one-slot specification, with failures at any step and expiry at any time, and the slots agree at its end |
| RefreshTheorems.RedeemedAtMostOnce | internal/auth/service/auth_service.go:163-195 | without overlap no token makes two Refreshes succeed |
| RefreshTheorems.LoggedOutUntilNextIssue | internal/auth/service/auth_service.go:197-204 | without overlap, after a successful Logout no Refresh of that user succeeds before a login has stored a token for the user, and that store is the first for the user since the Logout |
| RefreshTheorems.ServedAfterLogoutNeedsStore | internal/auth/service/auth_service.go:170-204 | in every schedule, overlapping or not, a GET that serves a Refresh after a successful Logout has a store for that user between the two |
| NonInterference.OthersDoNotMatter | internal/auth/service/auth_service.go:68-204 | dropping the steps that requests take once they act for other users changes neither the user's slot nor any request not acting for another user; logins that act for nobody yet stay in the run |
| NonInterference.SlotUnaffected | internal/auth/repository/auth_repo.go:27-61 | the slot after any run is the one after the run without those steps |
| OwnRequests.OnlyOwnRequestsMatter | internal/auth/service/auth_service.go:68-204 | once the user is committed, the slot after any run is the one after the run that keeps only the requests that come to act for the user: every other request can be dropped whole, from its arrival, sign-up transaction included |
| Postgres.InsertConsistent | db/sqlc/auth.sql.go:14-85 | an accepted INSERT leaves committed rows and all open transactions free of clashes |
| Postgres.CommitConsistent | internal/auth/repository/user_repo.go:99-101 | a commit never breaks a constraint, nor any other open transaction |
| Postgres.InsertUserMeans | db/migrations/000001_create_users.up.sql:1-11 | a user row is taken if and only if its name fits and no committed or open row has its id or its name; the transaction then holds that row more and nothing else changes |
| Postgres.InsertWalletMeans | db/migrations/000002_create_wallets.up.sql:1-6 | a wallet is taken if and only if the transaction sees its user and no committed or open wallet is the user's |
| Postgres.InsertProviderMeans | db/migrations/000013_create_user_providers.up.sql:1-9 | a provider row is taken if and only if the transaction sees its user, its texts fit, and no committed or open row has its id or its provider and subject |
| AuthService.CallIsARun | internal/auth/service/auth_service.go:97-204 | a service call on a reachable world ends in a world reachable by the step system |
| AuthService.TurnsAreARun | internal/auth/service/auth_service.go:97-204 | a request's turns, with anything happening in between, are a run of the step system |
| AuthService.AuthRepo.StoreRefreshToken | internal/auth/repository/auth_repo.go:34-39 | the slot holds the token with its expiry, or is untouched if the call did not take effect; nothing else changes |
| AuthService.AuthRepo.GetRefreshToken | internal/auth/repository/auth_repo.go:43-52 | the live token of the slot; none for a missing or expired key and for a failed call |
| AuthService.AuthRepo.DeleteRefreshToken | internal/auth/repository/auth_repo.go:56-61 | the slot is empty, or untouched if the call did not take effect; a missing key is not an error |
| AuthService.UserRepo.ExistsUsername | internal/auth/repository/user_repo.go:41-48 | true exactly when a committed user has the name |
| AuthService.UserRepo.CreateUser | db/sqlc/auth.sql.go:14-42 | succeeds if and only if the call works, the transaction is open, the name fits and no committed or open row has the id or the name; then exactly that row joins the transaction's rows, otherwise nothing changes |
| AuthService.UserRepo.CreateUserProvider | db/sqlc/auth.sql.go:44-78 | succeeds if and only if the call works, the user is visible to the transaction, the texts fit and no committed or open row has the id or the provider and subject; then exactly that row is added |
| AuthService.UserRepo.CreateWallet | db/sqlc/auth.sql.go:80-90 | succeeds if and only if the call works, the user is visible to the transaction and no committed or open wallet is the user's; then exactly one wallet with zero balances is added |
| AuthService.Service.GenerateUniqueUsername | internal/auth/repository/user_repo.go:53-66 | takes at most five turns and returns only a name seen absent by the last check |
| AuthService.Service.CreateGuestUser | internal/auth/repository/user_repo.go:72-104 | takes exactly the steps of its program: name, begin, user, wallet, commit, with rollback on any error in between |
| AuthService.Service.CreateGoogleUser | internal/auth/repository/user_repo.go:112-161 | takes exactly the steps of its program: name, begin, user, provider, wallet, commit, with rollback on any error in between |
| AuthService.Service.IssueTokenPair | internal/auth/service/auth_service.go:68-91 | takes exactly the steps draw and SET; a pair is returned only when the SET worked |
| AuthService.Service.GuestLogin | internal/auth/service/auth_service.go:97-114 | takes exactly the steps of its program and ends with a pair or an error |
| AuthService.Service.GoogleLogin | internal/auth/service/auth_service.go:121-161 | takes exactly the steps of its program: verify, look up, create if absent, issue; whom it lets in is `LoginTheorems.LookupBindsIffRegistered`, `ReturningUserGetsIn` and `NewGoogleUserGetsIn` |
| AuthService.Service.Refresh | internal/auth/service/auth_service.go:170-195 | takes exactly the steps GET and compare, DEL, draw, SET |
| AuthService.Service.Logout | internal/auth/service/auth_service.go:199-204 | takes exactly the step DEL, and succeeds exactly when it worked |
| Jwt.ValidIffSignedAndFresh | internal/auth/jwt/jwt.go:36-67 | helper fact: a token is accepted if and only if it is what signing its claims with this secret gives and the clock is before its expiry and not before its start, where it has them |
| Jwt.NumericDate | internal/auth/jwt/jwt.go:22-32 | expiry and issue time are cut to whole seconds, downwards |
| Jwt.FreshClaims | internal/auth/jwt/jwt.go:22-32 | a fresh token names its user and role, is issued in the second of now, expires in the second of now + ttl, has no "nbf", and lives exactly ttl when that is whole seconds |
| Identity.PairWasMinted | internal/auth/service/auth_service.go:68-91 | a pair handed out was minted for this request's user at a definite step of the run |
| Identity.TokenKeepsIdentity | internal/auth/service/auth_service.go:76-90 | an access token handed out by any flow authenticates as its user with role "player" exactly while the time is before its second-truncated expiry, and the text passed on parses back to that user |
| Identity.OnlySignedTokensPass | internal/middleware/auth.go:19-76 | a header is accepted with certain claims if and only if it is "Bearer " and a non-empty text that decodes to those claims signed by HS256 with the service's secret, and the time is inside their bounds |
| Identity.LogoutHitsOneSlot | internal/auth/service/auth_service.go:199-204 | a Logout that takes effect empties its user's slot and no other |
| AuthHandler.JWTMiddleware | internal/middleware/auth.go:19-40 | sets user id and role from the validated claims, or answers 401 and aborts with the context untouched; every header that does not start with "Bearer " is answered so |
| AuthHandler.Logout | internal/auth/handler/auth_handler.go:101-126 | deletes for the user in the context, in any of the four text forms, and answers 204 even if the store fails; a missing or ill-typed id is answered 500 and an unreadable one 400, with no store touched |
| AuthHandler.LogoutRoute | internal/auth/handler/auth_handler.go:101-126 | middleware and handler together log out exactly the user the token names, or answer 401 and touch no store |
| RedisKeys.ParseOfPrint | internal/redis/keys.go:13-52 | parsing a printed key gives back its family and every segment, empty segments included |
| RedisKeys.PrintInjective | internal/redis/keys.go:13-52 | no two keys of any of the six families share a text |
| RedisKeys.PrintOfParse | internal/redis/keys.go:24-38 | the parser accepts printed keys and nothing else |
| RedisKeys.KeyFields | internal/redis/keys.go:13-52 | cut at the colons, each key is its literal words and UUID texts, field by field |
| RedisKeys.QueueKeyFields | internal/redis/keys.go:31-38 | a queue key is printed if and only if no segment holds a colon, a star or a question mark, and then its fields are "queue" and the three segments in order |
| RedisKeys.RefreshKeyInjective | internal/auth/repository/auth_repo.go:27-29 | two users share a refresh key if and only if they are the same |
| Uuids.ParseOfText | internal/redis/keys.go:13-15 | the text form of section 4 of RFC 9562 parses back to the UUID |
| Uuids.TextForm | internal/redis/keys.go:13-15 | dashes at 8, 13, 18 and 23, and between them the 32 lower-case digits by falling weight (section 4 of RFC 9562) |
| Uuids.ParseOfForms | internal/auth/handler/auth_handler.go:114-118 | the plain text, the URN, the braced text and the bare digits of a UUID all parse back to it |
| Uuids.ParseIff | internal/auth/handler/auth_handler.go:114-118 | a text parses to a UUID if and only if it is one of those four forms of it, in either case |
| Uuids.TextOfParse | internal/auth/handler/auth_handler.go:114-118 | a text that parses is the text of what it parses to if and only if it has the plain form in lower case |
| Base64Url.DecodeOfEncode | internal/auth/google/jwks.go:88-97 | decoding undoes encoding for every byte string (section 5 of RFC 4648) |
| Base64Url.DecodesIff | internal/auth/google/jwks.go:88-97 | exactly which texts are rejected: a foreign character, or a length that leaves one digit over |
| Base64Url.Alphabet | internal/auth/google/jwks.go:88-97 | the alphabet of section 5 of RFC 4648, written out, and its inverse |
| Base64Url.UnpackSpells | internal/auth/google/jwks.go:88-97 | independent of any encoder: the decoded bytes are the number that the digits spell in base 64, without the spare low bits of a short last group |
| Base64Url.BreaksAnywhere | internal/auth/google/jwks.go:88-97 | a line break may stand anywhere |
| Base64Url.FromBytesConcat | internal/auth/google/jwks.go:99-100 | integers are big-endian: bytes put in front weigh 256 to the number of bytes behind them |
| Base64Url.FromToBytes | internal/auth/google/jwks.go:99-100 | the big-endian integer of a number's shortest form is that number |
| JwkSet.RebuiltIff | internal/auth/google/jwks.go:88-105 | a key encoded by section 6.3.1 of RFC 7518 is rebuilt exactly if and only if its exponent is below 2^63; the modulus always is |
| JwkSet.RebuiltNumbers | internal/auth/google/jwks.go:88-105 | the modulus is the number its text spells, and the exponent the low 64 bits of the one its text spells |
| JwkSet.UsualExponent | internal/auth/google/jwks.go:94-105 | an entry with the exponent "AQAB" is rebuilt with 65537 |
| JwkSet.KeySetRejects | internal/auth/google/jwks.go:88-97 | a list is rejected if and only if some RSA entry does not decode |
| JwkSet.ServedIsOffered | internal/auth/google/jwks.go:82-106 | only kids of RSA entries are served |
| JwkSet.LastOneWins | internal/auth/google/jwks.go:82-106 | each kid is served with the key of its last RSA entry |
| JwkSet.OtherTypesIgnored | internal/auth/google/jwks.go:84-86 | an entry of another type, anywhere in the list, changes nothing (section 5 of RFC 7517) |
| JwkSet.PublishedKeysAreServed | internal/auth/google/jwks.go:82-110 | any list published by the standard is accepted and each kid is served with the key published last for it |
| JwksProtocol.RunInv | internal/auth/google/jwks.go:59-147 | in every reachable state the lock's holders stand in guarded sections, a writer is alone, and the fields match the last successful fetch except between its two assignments |
| JwksProtocol.SomeoneCanMove | internal/auth/google/jwks.go:116-147 | while a call is unfinished, some call can move |
| JwksTheorems.FieldsAgree | internal/auth/google/jwks.go:108-110 | under either lock keys and fetchedAt come from the same last successful fetch |
| JwksTheorems.FailuresChangeNothing | internal/auth/google/jwks.go:60-110 | over a stretch without a successful fetch neither field changes |
| JwksTheorems.ReturnedKeysAreFresh | internal/auth/google/jwks.go:116-147 | a returned key is in a snapshot younger than ttl when this call checked it, or in the one this call fetched |
| JwksTheorems.ErrorsComeFromTheEndpoint | internal/auth/google/jwks.go:138-145 | a call fails only if its own fetch failed or its own answer lacks the kid |
| JwksTheorems.FetchSpacing | internal/auth/google/jwks.go:131-140 | a successful fetch for a kid that the snapshot before it had was requested at least ttl after every earlier one was recorded |
| JwksTheorems.RequestSpacing | internal/auth/google/jwks.go:131-140 | the same for every request on its way, whether or not it will succeed |
| JwksTheorems.FetchesAtMostOnce | internal/auth/google/jwks.go:116-147 | one call sends at most one request |
| JwksCalls.UndisturbedCall | internal/auth/google/jwks.go:116-147 | what one call does when nothing interferes, in full: a kid in a snapshot younger than ttl is answered from the unchanged cache; any other is asked for, a good answer replaces cache and time and decides the result, a bad one is an error that leaves both alone |
| JwksCache.CallIsARun | internal/auth/google/jwks.go:116-147 | a getKey call on a reachable cache ends in a cache reachable by the step system |
| JwksCache.TurnsAreARun | internal/auth/google/jwks.go:116-147 | a call's turns, with anything happening in between, are a run of the step system |
| JwksCache.JWKSCache.BuildKeys | internal/auth/google/jwks.go:82-106 | the loop builds exactly the specified map, or refuses exactly the lists with an undecodable RSA entry; every kid whose last RSA entry says "AQAB" is served with the exponent 65537 |
| JwksCache.JWKSCache.FetchLocked | internal/auth/google/jwks.go:59-111 | takes exactly the steps send, receive and build, store keys, store time; stops after the second on any error |
| JwksCache.JWKSCache.GetKey | internal/auth/google/jwks.go:116-147 | takes exactly the steps of both paths, checking age and kid again under the write lock |
| ConnectionProtocol.RunInv | internal/rabbitmq/connection.go:32-170 | in every reachable state the invariants of the lock, of the loop's own connection, of open connections and of Close hold |
| ConnectionTheorems.WaitsOnTheSharedConnection | internal/rabbitmq/connection.go:111-170 | whenever the loop waits, its own conn is c.conn and declareTopology has run on it |
| ConnectionTheorems.NoStrayConnections | internal/rabbitmq/connection.go:111-170 | at most the shared connection and the one being installed are open |
| ConnectionTheorems.NoLockAcrossSlowCalls | internal/rabbitmq/connection.go:53-89 | nobody holds the mutex while dialling, waiting, delaying, declaring, closing or opening a channel |
| ConnectionTheorems.LockHoldersCanStep | internal/rabbitmq/connection.go:53-89 | in every reachable state whoever holds the lock can step |
| ConnectionTheorems.NoDeadlock | internal/rabbitmq/connection.go:53-170 | if no thread can step, every Channel call and Close have returned and the loop has ended or waits on a live connection |
| ConnectionTheorems.ChannelWorks | internal/rabbitmq/connection.go:53-67 | from every reachable published state with a free lock and an open shared connection, a call of Channel that the broker accepts ends with a channel on that connection |
| ConnectionTheorems.ClosedLoopWindsDown | internal/rabbitmq/connection.go:111-170 | once closed is set the loop takes at most nine more steps, by a decreasing measure |
| ConnectionTheorems.AtMostOneDialAfterClose | internal/rabbitmq/connection.go:136-155 | after closed is set at most one dial completes, and none is attempted unless one was pending |
| ConnectionTheorems.ClosedWaitOnlyExits | internal/rabbitmq/connection.go:121-131 | a closed loop at its wait never redials or changes the connection |
| ConnectionTheorems.ClosedLoopAdvances | internal/rabbitmq/connection.go:111-170 | given the lock, a closed loop moves towards its exit if and only if it does not wait on an open connection |
| ConnectionTheorems.WaitThenDropExits | internal/rabbitmq/connection.go:121-131 | however the program interleaves, a closed loop whose connection has dropped takes at most four more steps, dials nothing, leaves the connection alone, and has exited when nothing can step any more |
| ConnectionTheorems.LoopExitsOnlyIfClosed | internal/rabbitmq/connection.go:111-170 | in every reachable state a loop that has exited was told so: closed is set |
| ConnectionTheorems.LoopReconnects | internal/rabbitmq/connection.go:111-170 | a dropped connection is replaced after any number of failed dials: the loop waits again, on the new shared connection |
| ConnectionTheorems.DelayIsInterrupted | internal/rabbitmq/connection.go:148-153 | a loop in its delay exits if done is closed and the timer does not come first |
| ConnectionTheorems.CloseStopsTheLoop | internal/rabbitmq/connection.go:71-170 | if no dial or installation was pending when closed was set, no further dial is made, the loop takes at most eight more steps, after Close it never waits on an open connection, with the lock free each step decreases the measure, and it has exited when nothing can step any more |
| ConnectionTheorems.CloseLeavesAConnectionOpenIff | internal/rabbitmq/connection.go:71-82 | at the moment closed is set, Close can leave a connection open if and only if a dial or the installation of a live connection was pending |
| ConnectionTheorems.CloseCanLeaveAConnectionOpen | internal/rabbitmq/connection.go:136-157 | a concrete run reaches that moment with a dial pending, and from it a connection is left open |
| ConnectionTheorems.LeftOpenUntilDropped | internal/rabbitmq/connection.go:111-170 | such a connection stays open, and the loop stays, until the broker drops it |
| ConnectionTheorems.LeftOpenIsWatched | internal/rabbitmq/connection.go:71-82 | a connection open after Close has returned is always one the loop installs or watches |
| ConnectionTheorems.FailedNewLeavesItOpen | internal/rabbitmq/connection.go:35-44 | if New fails because the topology could not be declared, the connection it dialled stays open until the broker drops it |
| ConnectionTheorems.NewCanFailAfterItsDial | internal/rabbitmq/connection.go:35-44 | a concrete run in which New fails so |
| BrokerConnection.TurnsAreARun | internal/rabbitmq/connection.go:32-170 | a thread's turns, with anything happening in between, are a run of the step system |
| BrokerConnection.Connection.New | internal/rabbitmq/connection.go:32-49 | takes exactly the steps dial, install, declare; succeeds only with a declared connection installed, and fails with none or with an undeclared one left installed |
| BrokerConnection.Connection.SetConn | internal/rabbitmq/connection.go:85-89 | takes exactly the steps lock, write, unlock, and installs the connection |
| BrokerConnection.Connection.ReconnectLoop | internal/rabbitmq/connection.go:111-170 | takes exactly the steps of the nested loops, for as many turns as it is given |
| BrokerConnection.Connection.Close | internal/rabbitmq/connection.go:71-82 | takes exactly the steps lock, set, read, unlock, close done, close connection |
| BrokerConnection.Connection.Channel | internal/rabbitmq/connection.go:53-67 | takes exactly the steps lock, read, unlock, open; it returns a channel if and only if a connection was installed at the read, that connection is open at the last step and the broker accepts, and the channel is on that connection |
| Consumer.ComputeXDeathCount | internal/rabbitmq/consumer.go:79-108 | the 64-bit accumulation equals the sum of all counts (`SumIs`) wrapped once, so it is exact whenever that sum fits |
| Consumer.SumIs | internal/rabbitmq/consumer.go:88-107 | the sum adds up over any split of the list; a 64-bit or 32-bit count adds its value, any other entry nothing |
| Consumer.Consumer.Consume | internal/rabbitmq/consumer.go:34-74 | each delivery is settled exactly once and in order, the handler sees exactly those with a count below 3, Ack is sent exactly on a guard hit or a success |
| Consumer.RejectionsAreBounded | internal/rabbitmq/consumer.go:55-71 | over any stream of deliveries to any consumers a message that comes with count c is effectively rejected at most 3 - c times, or never |
| Consumer.AtMostThreeRejections | internal/rabbitmq/consumer.go:55-71 | a message starting at count 0 is effectively rejected at most three times over its whole life |
| Consumer.AcknowledgedAfterThree | internal/rabbitmq/consumer.go:58-64 | a delivery of such a message hits the guard if and only if it has been rejected three times before |
| Consumer.ThreeIsReached | internal/rabbitmq/consumer.go:66-71 | the bound is reached by a handler that always fails |
| Topology.Broker.ExchangeDeclare | internal/rabbitmq/topology.go:45-68 | adds the exchange or nothing; undisturbed, it is refused exactly on a clash |
| Topology.Broker.QueueDeclare | internal/rabbitmq/topology.go:71-80 | adds the queue or nothing; undisturbed, it is refused exactly on a clash |
| Topology.Broker.QueueBind | internal/rabbitmq/topology.go:83-85 | adds the binding or nothing; undisturbed, it is refused exactly when an end is missing |
| Topology.DeclareAll | internal/rabbitmq/topology.go:43-107 | success leaves the initial layout joined with the required one; a failed run leaves part of that; undisturbed it succeeds if and only if nothing clashes; for any list of queues whose names are neither empty nor the dead-letter queue's |
| Topology.RerunReachesTheSame | internal/rabbitmq/topology.go:34-43 | a rerun after a failure anywhere reaches the same layout and is accepted in the same cases |
| Topology.Converges | internal/rabbitmq/topology.go:34-43 | after any number of failed runs the first that succeeds leaves the initial layout joined with the required one, and another run changes nothing |
| Topology.JoinedExactly | internal/rabbitmq/topology.go:26-41 | helper fact: what success leaves, entry by entry for queues, exchanges and bindings: everything that was there unchanged, everything required, nothing else |
| Topology.GameLayout | internal/rabbitmq/topology.go:10-107 | the layout asked for, name by name: two exchanges with their kinds, the dead-letter queue, five queues that name game.dlx as their dead-letter exchange, six bindings with their keys |
| Topology.GameQueuesAreProper | internal/rabbitmq/topology.go:23-32 | the five queues of the repository have distinct names of their own |

## Left out

- The battle engine, matchmaking, ranking, the wallet ledger and missions: only documents describe them.
- Where rejected messages end up: the binding of `game.dead.queue` has an empty key, and routing happens inside the broker. Nothing is claimed about delivery to that queue.
- Cryptography, JSON and HTTP: signatures are symbolic, a token's compact form is an abstract encoding, and the verification of Google's ID token is one step with an arbitrary outcome. The key it would use is not connected to that step.
- WSJWTMiddleware: it takes the same path as JWTMiddleware with another message.
- Login and refresh handlers, the publisher, health checks, configuration, logging, telemetry and start-up: thin wrappers.
- The words of the username generator: it may return any name.
- Automatic retries inside the Redis client, and a write that lands after its error was reported.
- Columns that no proved property mentions: avatar, level, rank, timestamps.
- Several calls of `Close`: a second one panics in the original, and the model has one.
- Fairness of the read/write lock: a waiting writer does not hold back new readers, which only adds schedules.
- The age of a key is measured, as in the code, from the moment the fetch is recorded, not from the moment the endpoint answered.
- Lengths of time: `reconnectDelay` and the HTTP timeout can take any time.
- BrokerConnection.Connection.ReconnectLoop: an endless loop is modelled by its finite prefixes, one for every list of turns.
