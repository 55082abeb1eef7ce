# spinlock — the per-call lock attempt of `acquire`, in Dafny

The repository is a Redis-backed spinlock for Node.js. Its one piece of real
logic is what a single call of `acquire(name, cb)` does: it tries to claim the
key with `SET name value PX timeout NX` and polls on an interval while the key
is held. Once it has the key, it swaps the poll interval for a keepalive
interval that refreshes the key with `SET … PX`. Then it calls `cb(release)`.
`release` finally deletes the key with `DEL` and settles the promise that
`acquire` returned. The code has two versions:

* `lib/spinlock.js`, the current one. It has typed errors (`RedisError`,
  `AcquireError`, `LockError`), an `autorelease` option, per-call options and
  a `released` counter that guards `release`.
* `index.js`, the older one. It rejects with string codes such as
  `"REQUEST_TIMEOUT"`, and its `release` has no guard.

Each version is modelled twice. The first model is a pure transition system
(`SpinlockMachine`, `LegacyMachine`). In it, the closure of one `acquire` call
is a `State`. Every Redis reply, interval tick, settlement of the callback's
result and call of `release` by the holder is an `Event`. `Run` delivers a
sequence of events and drops each one that cannot happen in the state it
meets, for example a tick of an interval that is not live or a reply to a
command that was never sent. So `Run` covers every order in which Redis, the
clock and the holder can act. The state also has counters for the SET NX,
SET PX and DEL commands sent. The counting bounds are stated in terms of these
counters.

The second model is a class (`Spinlock.Attempt`, `Legacy.LegacyAttempt`). Its
fields are the closure's variables, and its methods update them in place the
way `request`, `refresh`/`keepalive`, `release` and `next` do. Each method is
proved to perform the corresponding transition of the pure machine. Each
public method also keeps `Valid()`, which is the machine's invariant. The
scenario modules drive these objects through whole runs against a scripted
Redis.

Modules, one per file:

* `Common` (common.dfy): option values, JavaScript's `Infinity` ceilings
  (`Limit`), the interval handle (`Timer`) and the three claim replies.
* `Options` (options.dfy): the factory defaults of lib/spinlock.js and the
  per-call merge `_.extend({}, name, options)`. In that merge the factory's
  options win on every key.
* `SpinlockMachine`, `Spinlock`, `SpinlockScenarios`: lib/spinlock.js.
* `LegacyMachine`, `Legacy`, `LegacyScenarios`: index.js.

The code departs in several places from what its names and comments suggest.
The model follows the code:

* lib/spinlock.js validates in the order client, name, callback. It accepts
  the empty string as a name. index.js validates in the order name, callback,
  client, and refuses the empty name.
* In lib/spinlock.js the attempt ceiling is checked by `request` before each
  claim. It is not checked after a failed claim, so `attempts = 0` sends no
  claim at all. In index.js the counter is checked when a claim finds the key
  held, so with `requests = n` the `(n+1)`-th held reply rejects, after
  at least `n+1` claims: poll ticks send claims without looking at the
  counter, so more can be in flight.
* A keepalive failure, whether the ceiling is reached or the refresh fails,
  goes through `next` alone. It clears the interval and rejects, but it does
  not call `release`, does not mark the attempt released and sends no DEL
  itself. Since the attempt is still unreleased, a later `release` by the
  holder, or the settlement of the callback's result, still sends the DEL.
* The index.js keepalive counter counts successful refreshes. It is checked
  after a success, not before a refresh is sent.

A behaviour of lib/spinlock.js that the model exposes is proved as
`SpinlockScenarios.LateHeldReplyReclaims`. Polls go out on an interval
whether or not the previous claim has been answered, so several claims can be
in flight. Suppose the first of two outstanding claims succeeds and the
holder releases at once, which clears the interval and sends the DEL. The
second claim's "held" reply was sent before the DEL, so it arrives before the
DEL's reply, and it finds `!interval` true, so polling restarts. Once the DEL
has freed the key, the next claim takes it, and the callback runs a second
time. Its `release` is swallowed by the `released` guard. As a result
the keepalive interval keeps refreshing the key and no second DEL is sent.

In both versions, a rejection does not cancel claims already in flight
(`SpinlockScenarios.RetryAfterClaimError`,
`LegacyScenarios.LegacyRetryAfterClaimError`). After a claim error has
rejected the promise and cleared the interval, a "held" reply to an earlier
claim restarts polling, and a later `'OK'` calls the callback, although the
promise is already settled.

## Model

| member | source | states |
|---|---|---|
| Options.FactoryOptions | lib/spinlock.js:21-47 | every tuning key gets the caller's value when given, otherwise the default: timeout 500, poll 100, attempts and keepalives unbounded, keepalive 100, autorelease on |
| Options.CallOptions | lib/spinlock.js:66-68 | merging a per-call options object yields exactly the factory's settings on every tuning key; the name comes from the factory when it has one, otherwise from the per-call object |
| Options.CallSetup | lib/spinlock.js:62-69 | a string first argument is the name; a value whose `typeof` is `'object'` (an options object, and also `null` or an array, which contribute no options) contributes only its name, and the factory's settings and name win; any other argument (a number, a function, `undefined`) leaves no string name |
| Options.Extend | lib/spinlock.js:66 | `_.extend`: no contract of its own; stated by `Options.FactoryOptions` and `Options.CallOptions` |
| SpinlockMachine.Settle | lib/spinlock.js:72 | `resolve`/`reject` of the outer promise: no contract of its own; stated by `SpinlockMachine.StepKeepsOutcome` and `SpinlockMachine.RunKeepsOutcome` |
| SpinlockMachine.Validation | lib/spinlock.js:79-88 | no contract of its own; stated by `SpinlockMachine.ValidationOrder` |
| SpinlockMachine.Begin | lib/spinlock.js:79-91 | no contract of its own; stated by `SpinlockMachine.ValidationOrder`, `SpinlockMachine.BeginInv` and `SpinlockMachine.ValidationFailureIsFinal` |
| SpinlockMachine.Request | lib/spinlock.js:97-102 | no contract of its own; stated by `SpinlockMachine.AttemptCeiling` and `SpinlockMachine.RequestInv` |
| SpinlockMachine.OnClaimReply | lib/spinlock.js:103-122 | no contract of its own; stated by `SpinlockMachine.ClaimFailureAndHeld`, `SpinlockMachine.ClaimSuccess` and `SpinlockMachine.ClaimReplyInv` |
| SpinlockMachine.Acquired | lib/spinlock.js:107-117 | no contract of its own; stated by `SpinlockMachine.ClaimSuccess` and `SpinlockMachine.AcquiredInv` |
| SpinlockMachine.OnCallbackSettled | lib/spinlock.js:111-113 | no contract of its own; stated by `SpinlockMachine.CallbackResultReleases` and `SpinlockMachine.CallbackSettledInv` |
| SpinlockMachine.Refresh | lib/spinlock.js:129-133 | no contract of its own; stated by `SpinlockMachine.KeepaliveCeilingAndErrors` and `SpinlockMachine.RefreshInv` |
| SpinlockMachine.OnRefreshReply | lib/spinlock.js:135-139 | no contract of its own; stated by `SpinlockMachine.KeepaliveCeilingAndErrors` and `SpinlockMachine.StepInv` |
| SpinlockMachine.DoRelease | lib/spinlock.js:149-173 | no contract of its own; stated by `SpinlockMachine.ReleaseIdempotent`, `SpinlockMachine.ReleasePriority` and `SpinlockMachine.DoReleaseInv` |
| SpinlockMachine.OnDelReply | lib/spinlock.js:154-164 | no contract of its own; stated by `SpinlockMachine.ReleasePriority` and `SpinlockMachine.StepInv` |
| SpinlockMachine.Next | lib/spinlock.js:181-192 | no contract of its own; stated by `SpinlockMachine.NextLeavesOneInterval` |
| SpinlockMachine.ValidationOrder | lib/spinlock.js:79-91 | no client rejects RedisError, then a non-string name TypeError, then a non-function callback TypeError; a failed check sends no SET and arms no interval; when all pass, one claim is sent unless `attempts` is 0, which rejects at once |
| SpinlockMachine.ValidationFailureIsFinal | lib/spinlock.js:79-91 | after a failed check no event can change the attempt |
| SpinlockMachine.AttemptCeiling | lib/spinlock.js:97-102 | `requests` is checked and then incremented on every poll; below the ceiling a SET NX is sent; at it no SET is sent, the interval is cleared and the promise rejects AcquireError('Max attempts reached') |
| SpinlockMachine.ClaimFailureAndHeld | lib/spinlock.js:102-121 | in every state, a claim error clears the interval and rejects a pending promise with RedisError; this reply schedules no retry and calls no callback, and other claims stay in flight; a held reply starts polling whenever no interval is live, even after the promise has settled, and otherwise changes nothing |
| SpinlockMachine.ClaimSuccess | lib/spinlock.js:107-117 | in every state, an OK claim replaces the live interval by the keepalive interval and calls the callback once; a returned result is awaited; a synchronous throw before any release releases at once with the thrown error; a throw after an earlier release is swallowed, leaving the keepalive interval live with no DEL; a keepalive time of 0 rejects with the refresh function |
| SpinlockMachine.CallbackResultReleases | lib/spinlock.js:111-113 | a fulfilled callback result becomes `release(null, data)`, a rejected one `release(err)`; after an earlier release it only bumps the `released` count |
| SpinlockMachine.KeepaliveCeilingAndErrors | lib/spinlock.js:129-139 | in every state, below the keepalive ceiling a refresh SET is sent; at it none is, and a pending promise rejects LockError('Lock keepalive timeout'); a refresh error rejects it with RedisError; both only clear the interval, with no DEL and `released` unchanged |
| SpinlockMachine.ReleaseIdempotent | lib/spinlock.js:149-154 | the first release clears the interval and sends one DEL when autorelease is on; every release after it, in any state, changes nothing but the `released` count |
| SpinlockMachine.ReleasePriority | lib/spinlock.js:153-171 | with autorelease a DEL error rejects RedisError even without `err`, else `err` rejects, else `data` resolves; without autorelease no DEL is sent and `err`/`data` settle directly |
| SpinlockMachine.NextLeavesOneInterval | lib/spinlock.js:181-192 | `next` leaves exactly the new interval when given a handler and a non-zero time and none otherwise, rejects with a handler given without a time or with an error, and changes nothing else |
| SpinlockMachine.BeginInv | lib/spinlock.js:72-91 | the state right after validation satisfies the attempt invariant |
| SpinlockMachine.RequestInv | lib/spinlock.js:97-102 | a poll keeps the invariant, in particular SET NX count = min(requests, attempts) |
| SpinlockMachine.RefreshInv | lib/spinlock.js:129-133 | a keepalive tick keeps the invariant, in particular SET PX count = min(refreshes, keepalives) |
| SpinlockMachine.DoReleaseInv | lib/spinlock.js:149-172 | a release keeps the invariant, in particular one DEL exactly when released with autorelease |
| SpinlockMachine.AcquiredInv | lib/spinlock.js:107-117 | a successful claim keeps the invariant, whether the callback returns or throws |
| SpinlockMachine.ClaimReplyInv | lib/spinlock.js:102-122 | a claim reply keeps the invariant |
| SpinlockMachine.CallbackSettledInv | lib/spinlock.js:111-113 | the settlement of the callback's result keeps the invariant |
| SpinlockMachine.StepInv | lib/spinlock.js:97-192 | every event that can happen keeps the invariant |
| SpinlockMachine.RunInv | lib/spinlock.js:72-192 | every run of events from an invariant state ends in an invariant state |
| SpinlockMachine.Ceilings | lib/spinlock.js:72-192 | over every run: at most `attempts` SET NX, at most `keepalives` SET PX, at most one DEL and only after a release with autorelease; no refresh, DEL or keepalive interval before the callback is called |
| SpinlockMachine.StepKeepsOutcome | lib/spinlock.js:72 | once settled, the promise keeps its outcome through any event |
| SpinlockMachine.RunKeepsOutcome | lib/spinlock.js:72 | once settled, the promise keeps its outcome through any run: it settles at most once |
| Spinlock.Attempt.constructor | lib/spinlock.js:73-77 | the closure starts with zero counters, no interval and a pending promise |
| Spinlock.Attempt.Settle | lib/spinlock.js:72 | resolve/reject write the outcome only when it is still pending |
| Spinlock.Attempt.Next | lib/spinlock.js:181-192 | performs `SpinlockMachine.Next` in place |
| Spinlock.Attempt.Request | lib/spinlock.js:97-102 | performs `SpinlockMachine.Request` in place |
| Spinlock.Attempt.Refresh | lib/spinlock.js:129-134 | performs `SpinlockMachine.Refresh` in place |
| Spinlock.Attempt.DoRelease | lib/spinlock.js:149-173 | performs `SpinlockMachine.DoRelease` in place |
| Spinlock.Attempt.Start | lib/spinlock.js:79-91 | validates and makes the first claim as `SpinlockMachine.Begin`, establishing `Valid()` |
| Spinlock.Attempt.OnRequestTick | lib/spinlock.js:97-102 | a poll tick performs `SpinlockMachine.Request` and keeps `Valid()` |
| Spinlock.Attempt.Acquired | lib/spinlock.js:107-117 | performs `SpinlockMachine.Acquired` in place |
| Spinlock.Attempt.OnClaimReply | lib/spinlock.js:103-122 | a claim reply performs `SpinlockMachine.OnClaimReply` and keeps `Valid()` |
| Spinlock.Attempt.OnRefreshTick | lib/spinlock.js:129-134 | a keepalive tick performs `SpinlockMachine.Refresh` and keeps `Valid()` |
| Spinlock.Attempt.OnRefreshReply | lib/spinlock.js:135-139 | a refresh reply performs `SpinlockMachine.OnRefreshReply` and keeps `Valid()` |
| Spinlock.Attempt.Release | lib/spinlock.js:149-173 | the holder's release performs `SpinlockMachine.DoRelease` and keeps `Valid()` |
| Spinlock.Attempt.OnCallbackSettled | lib/spinlock.js:111-113 | the callback result's settlement performs `SpinlockMachine.OnCallbackSettled` and keeps `Valid()` |
| Spinlock.Attempt.OnDelReply | lib/spinlock.js:154-164 | a DEL reply performs `SpinlockMachine.OnDelReply` and keeps `Valid()` |
| SpinlockScenarios.ThreeAttemptsThenAcquireError | lib/spinlock.js:97-122 | with `attempts = 3` and a key always held, exactly three claims are sent, the callback is never called and the fourth poll rejects AcquireError |
| SpinlockScenarios.ZeroAttempts | lib/spinlock.js:98-100 | with `attempts = 0` no claim is sent and the promise rejects AcquireError |
| SpinlockScenarios.TwoKeepalivesThenLockError | lib/spinlock.js:129-139 | with `keepalives = 2` exactly two refreshes are sent, the third tick rejects LockError, no DEL is sent and the attempt is not released |
| SpinlockScenarios.ResolvesWithCallbackResult | lib/spinlock.js:107-164 | a first-try claim whose callback yields 42 resolves with 42 after one claim and one DEL |
| SpinlockScenarios.ThrowingCallbackRejects | lib/spinlock.js:107-164 | two held replies, then a claim whose callback throws "boom", then a late release: rejects "boom" after three claims and one DEL |
| SpinlockScenarios.DelFailureWins | lib/spinlock.js:154-157 | a failing DEL rejects RedisError although the callback succeeded |
| SpinlockScenarios.LateHeldReplyReclaims | lib/spinlock.js:119-152 | in the order one connection answers, a held reply sent before the holder's release and answered after it restarts polling; the key is claimed again, the callback runs twice, the keepalive interval stays live and only one DEL is ever sent |
| SpinlockScenarios.RetryAfterClaimError | lib/spinlock.js:102-121 | with two claims in flight, the first one's error rejects RedisError, the second one's held reply restarts polling, and the next claim calls the callback with the keepalive interval live, after four claims |
| LegacyMachine.Settle | index.js:36 | `resolve`/`reject` of the outer promise: no contract of its own; stated by `LegacyMachine.LegacyRunKeepsOutcome` |
| LegacyMachine.Validation | index.js:127-135 | no contract of its own; stated by `LegacyMachine.LegacyValidationOrder` |
| LegacyMachine.Begin | index.js:127-138 | no contract of its own; stated by `LegacyMachine.LegacyValidationOrder`, `LegacyMachine.BeginInv` and `LegacyMachine.LegacyValidationFailureIsFinal` |
| LegacyMachine.Request | index.js:45-46 | no contract of its own; stated by `LegacyMachine.LegacyCeilings` and `LegacyMachine.StepInv` |
| LegacyMachine.OnClaimReply | index.js:47-62 | no contract of its own; stated by `LegacyMachine.LegacyClaimErrorAndSuccess`, `LegacyMachine.LegacyHeldReply` and `LegacyMachine.ClaimReplyInv` |
| LegacyMachine.Keepalive | index.js:68-69 | no contract of its own; stated by `LegacyMachine.LegacyCeilings` and `LegacyMachine.StepInv` |
| LegacyMachine.OnRefreshReply | index.js:70-78 | no contract of its own; stated by `LegacyMachine.LegacyRefreshReply` and `LegacyMachine.RefreshReplyInv` |
| LegacyMachine.Release | index.js:87-90 | no contract of its own; stated by `LegacyMachine.LegacyReleaseUnguarded` |
| LegacyMachine.OnDelReply | index.js:91-102 | no contract of its own; stated by `LegacyMachine.LegacyDelReplyPriority` |
| LegacyMachine.Next | index.js:111-122 | no contract of its own; stated by `LegacyMachine.LegacyNextLeavesOneInterval` |
| LegacyMachine.LegacyValidationOrder | index.js:127-138 | a missing, empty or non-string name rejects "NAME_ERROR", then a non-function callback "CALLBACK_ERROR", then a missing client "REDIS_ERROR"; a failed check sends no SET; otherwise one claim is sent |
| LegacyMachine.LegacyValidationFailureIsFinal | index.js:127-138 | after a failed check no event can change the attempt |
| LegacyMachine.LegacyClaimErrorAndSuccess | index.js:49-55 | in every state, a claim error clears the interval and rejects a pending promise with "REQUEST_ERROR" without counting, leaving other claims in flight; an OK claim, even after the promise has settled, puts the keepalive interval in place and calls the callback once, its return value settling nothing |
| LegacyMachine.LegacyHeldReply | index.js:56-61 | in every state, a held reply checks the counter and then increments it; at the ceiling it clears the interval and rejects a pending promise with "REQUEST_TIMEOUT"; below it, polling starts when no interval is live, even after the promise has settled |
| LegacyMachine.LegacyRefreshReply | index.js:72-77 | in every state, a refresh error clears the interval and rejects a pending promise with "REFRESH_ERROR" without counting; a success checks the counter and then increments it, rejecting "REFRESH_TIMEOUT" at the ceiling; no DEL either way |
| LegacyMachine.LegacyReleaseUnguarded | index.js:87-91 | every release clears the interval and queues its own DEL, so two releases send two DELs |
| LegacyMachine.LegacyDelReplyPriority | index.js:91-101 | a DEL error rejects "RELEASE_ERROR" even without `err`, else `err` rejects, else `data` resolves; only the first settlement counts |
| LegacyMachine.LegacyNextLeavesOneInterval | index.js:111-122 | `next` leaves at most one interval and rejects with a handler given without a time or with a code |
| LegacyMachine.BeginInv | index.js:124-138 | the state right after validation satisfies the attempt invariant |
| LegacyMachine.ClaimReplyInv | index.js:47-62 | a claim reply keeps the invariant, in particular polling never resumes past the claim ceiling |
| LegacyMachine.RefreshReplyInv | index.js:70-78 | a refresh reply keeps the invariant |
| LegacyMachine.StepInv | index.js:45-122 | every event that can happen keeps the invariant |
| LegacyMachine.RunInv | index.js:36-140 | every run from an invariant state ends in an invariant state |
| LegacyMachine.LegacyCeilings | index.js:36-140 | over every run: past the claim ceiling the promise is settled and polling never resumes; past the keepalive ceiling it is settled; held replies and successful refreshes never outnumber the SETs sent; no refresh or DEL before the callback |
| LegacyMachine.LegacyRunKeepsOutcome | index.js:36 | once settled, the promise keeps its outcome through any run |
| Legacy.LegacyAttempt.constructor | index.js:37-40 | the closure starts with zero counters, no interval and a pending promise |
| Legacy.LegacyAttempt.Settle | index.js:36 | resolve/reject write the outcome only when it is still pending |
| Legacy.LegacyAttempt.Next | index.js:111-122 | performs `LegacyMachine.Next` in place |
| Legacy.LegacyAttempt.Request | index.js:45-46 | performs `LegacyMachine.Request` in place |
| Legacy.LegacyAttempt.Start | index.js:127-138 | validates and makes the first claim as `LegacyMachine.Begin`, establishing `Valid()` |
| Legacy.LegacyAttempt.OnRequestTick | index.js:45-46 | a poll tick performs `LegacyMachine.Request` and keeps `Valid()` |
| Legacy.LegacyAttempt.OnClaimReply | index.js:47-62 | a claim reply performs `LegacyMachine.OnClaimReply` and keeps `Valid()` |
| Legacy.LegacyAttempt.OnRefreshTick | index.js:68-69 | a keepalive tick performs `LegacyMachine.Keepalive` and keeps `Valid()` |
| Legacy.LegacyAttempt.OnRefreshReply | index.js:70-78 | a refresh reply performs `LegacyMachine.OnRefreshReply` and keeps `Valid()` |
| Legacy.LegacyAttempt.Release | index.js:87-90 | the holder's release performs `LegacyMachine.Release` and keeps `Valid()` |
| Legacy.LegacyAttempt.OnDelReply | index.js:91-102 | a DEL reply performs `LegacyMachine.OnDelReply` and keeps `Valid()` |
| LegacyScenarios.LegacyRequestCeiling | index.js:45-61 | with `requests = 3` and a key always held, the fourth held reply rejects "REQUEST_TIMEOUT" after four claims and polling stops |
| LegacyScenarios.LegacyKeepaliveCeiling | index.js:68-77 | with `keepalives = 2` the third successful refresh rejects "REFRESH_TIMEOUT" after three refreshes and no DEL |
| LegacyScenarios.LegacyDoubleRelease | index.js:87-101 | two releases send two DELs and the first DEL reply decides the promise |
| LegacyScenarios.LegacyDelFailure | index.js:93-94 | a failing DEL rejects "RELEASE_ERROR" although the holder released with a value |
| LegacyScenarios.LegacyEmptyName | index.js:127-128 | an empty name rejects "NAME_ERROR" and sends nothing |
| LegacyScenarios.LegacyRetryAfterClaimError | index.js:45-62 | with two claims in flight, the first one's error rejects "REQUEST_ERROR", the second one's held reply restarts polling, and the next claim calls the callback with the keepalive interval live, after four claims |

## Left out

- Redis client construction and connection (lib/spinlock.js:52-53, index.js:25-26), with the `host`, `port` and `client` options. Only "a client is available" is modelled, as a boolean.
- Network round trips. Each reply to SET NX, SET PX and DEL is an event chosen by the environment: an error with a message, `'OK'`, or the held reply. Claim and refresh replies are counted, not queued, so the machines also allow orders that one Redis connection never produces (a claim reply overtaking a later DEL's reply); the invariants and the run-level lemmas hold for those runs too, and the scenario methods keep the order in which commands were sent. The DEL replies of index.js are answered oldest first, as one Redis connection does.
- Timer durations and `setInterval`/`clearInterval` themselves. An interval is the abstract `Timer` field, and a tick is an event. Of each millisecond value, only whether it is zero matters (the truthiness test in `next`), and `timeout` affects nothing. `NaN`, negative and non-integer times or ceilings are not modelled: `Limit` and `nat` cannot express them. In JavaScript a negative `attempts` or `keepalives` acts as 0, and a negative interval time is truthy and still arms the interval (lib/spinlock.js:98, 186). `Infinity` is `Limit.Unbounded`.
- The when.js promise library and the thenable check of lib/spinlock.js:111. What `cb(release)` does is modelled as "returned" or "threw", and how its awaited result settles as fulfilled or failed. The outer promise is the write-once `outcome` field.
- Values passed as `err` are modelled as present or absent. JavaScript's falsy values (`null`, `undefined`, `0`, `''`, `false`) count as absent, which is how the `if (err)` tests treat them. Data is `Undefined` or a string payload.
- lib/errors.js is not part of this model as a file. Its three constructors are the `RedisError`, `AcquireError` and `LockError` constructors of `SpinlockMachine.Reason`, each carrying a message string. Stack capture and prototype inheritance are left out. A Redis error object wrapped by `new RedisError(err)` is reduced to its message.
- The per-call options object of lib/spinlock.js is modelled on the keys `name`, `timeout`, `attempt`, `attempts`, `keepalive`, `keepalives` and `autorelease`. A `name` key whose value is not a string cannot be expressed, so `CallSetup` never produces the TypeError for it. Other keys and lodash's other behaviour are left out.
- index.js: a synchronous throw from `cb` inside the claim reply handler escapes into the Redis client and settles nothing. It is not modelled. The callback's return value, which the code ignores, is not modelled either.
- The option defaults of index.js (index.js:11-19) are the constant `LegacyDefaults`. Merging user options into them is left out, because index.js has no per-call options.
- Contention between processes and "at most one holder". Mutual exclusion comes from the atomicity of Redis SET NX, not from this code, so the key store is not modelled.
- The lock value `'someval'` (lib/spinlock.js:77, index.js:40) is the same constant for every holder and is never read back, so it plays no part in the model.
