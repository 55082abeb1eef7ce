/** Whole runs of one `acquire` call of lib/spinlock.js, driven through
    `Spinlock.Attempt` against a scripted Redis and a scripted holder: the
    attempt and keepalive ceilings, the success, throw and DEL-failure paths,
    and a claim reply that arrives after the attempt has been released.
    After each event the whole state is written out, in the field order of
    `SpinlockMachine.State`: requests, refreshes, timer, released, outcome,
    SET NX, SET PX and DEL counts, outstanding claims, refreshes and DEL,
    callbacks called, callback results awaited. */
module SpinlockScenarios {
  import opened Common
  import opened Options
  import opened SpinlockMachine
  import opened Spinlock

  /** The factory defaults with the two ceilings replaced. */
  function Config(attempts: Limit, keepalives: Limit): Settings
  {
    Settings(500, 100, attempts, 100, keepalives, true)
  }

  /** With `attempts = 3` and a key that stays held, exactly three claims are
      sent and the fourth poll rejects with AcquireError. */
  method ThreeAttemptsThenAcquireError() returns (outcome: Option<Settlement>, claims: nat, calls: nat)
    ensures outcome == Some(Rejected(AcquireError(MaxAttemptsMessage)))
    ensures claims == 3 && calls == 0
  {
    var a := new Attempt(Config(Bounded(3), Unbounded));
    a.Start(true, Some("job"), true);
    assert a.Snapshot() == State(1, 0, NoTimer, 0, None, 1, 0, 0, 1, 0, None, 0, 0);
    a.OnClaimReply(ClaimHeld, Returned);
    assert a.Snapshot() == State(1, 0, Interval(RequestFn), 0, None, 1, 0, 0, 0, 0, None, 0, 0);
    a.OnRequestTick();
    assert a.Snapshot() == State(2, 0, Interval(RequestFn), 0, None, 2, 0, 0, 1, 0, None, 0, 0);
    a.OnClaimReply(ClaimHeld, Returned);
    assert a.Snapshot() == State(2, 0, Interval(RequestFn), 0, None, 2, 0, 0, 0, 0, None, 0, 0);
    a.OnRequestTick();
    assert a.Snapshot() == State(3, 0, Interval(RequestFn), 0, None, 3, 0, 0, 1, 0, None, 0, 0);
    a.OnClaimReply(ClaimHeld, Returned);
    assert a.Snapshot() == State(3, 0, Interval(RequestFn), 0, None, 3, 0, 0, 0, 0, None, 0, 0);
    a.OnRequestTick();
    outcome, claims, calls := a.outcome, a.setNx, a.callbacks;
  }

  /** With `attempts = 0` the first call of `request` already rejects: no
      claim is ever sent. */
  method ZeroAttempts() returns (outcome: Option<Settlement>, claims: nat)
    ensures outcome == Some(Rejected(AcquireError(MaxAttemptsMessage))) && claims == 0
  {
    var a := new Attempt(Config(Bounded(0), Unbounded));
    a.Start(true, Some("job"), true);
    outcome, claims := a.outcome, a.setNx;
  }

  /** With `keepalives = 2` and a holder that never finishes, exactly two
      refreshes are sent and the third keepalive tick rejects with LockError.
      The rejection goes through `next` alone: no DEL is sent and the attempt
      is not marked released. */
  method TwoKeepalivesThenLockError() returns (outcome: Option<Settlement>, refreshes: nat, dels: nat, released: nat)
    ensures outcome == Some(Rejected(LockError(KeepaliveMessage)))
    ensures refreshes == 2 && dels == 0 && released == 0
  {
    var a := new Attempt(Config(Unbounded, Bounded(2)));
    a.Start(true, Some("job"), true);
    assert a.Snapshot() == State(1, 0, NoTimer, 0, None, 1, 0, 0, 1, 0, None, 0, 0);
    a.OnClaimReply(ClaimOk, Returned);
    assert a.Snapshot() == State(1, 0, Interval(RefreshFn), 0, None, 1, 0, 0, 0, 0, None, 1, 1);
    a.OnRefreshTick();
    assert a.Snapshot() == State(1, 1, Interval(RefreshFn), 0, None, 1, 1, 0, 0, 1, None, 1, 1);
    a.OnRefreshReply(None);
    assert a.Snapshot() == State(1, 1, Interval(RefreshFn), 0, None, 1, 1, 0, 0, 0, None, 1, 1);
    a.OnRefreshTick();
    assert a.Snapshot() == State(1, 2, Interval(RefreshFn), 0, None, 1, 2, 0, 0, 1, None, 1, 1);
    a.OnRefreshReply(None);
    assert a.Snapshot() == State(1, 2, Interval(RefreshFn), 0, None, 1, 2, 0, 0, 0, None, 1, 1);
    a.OnRefreshTick();
    outcome, refreshes, dels, released := a.outcome, a.setPx, a.del, a.released;
  }

  /** The first claim succeeds and the callback's result is 42: the promise
      resolves with 42 after exactly one DEL. */
  method ResolvesWithCallbackResult() returns (outcome: Option<Settlement>, claims: nat, dels: nat)
    ensures outcome == Some(Resolved(Data("42")))
    ensures claims == 1 && dels == 1
  {
    var a := new Attempt(Config(Unbounded, Unbounded));
    a.Start(true, Some("job"), true);
    assert a.Snapshot() == State(1, 0, NoTimer, 0, None, 1, 0, 0, 1, 0, None, 0, 0);
    a.OnClaimReply(ClaimOk, Returned);
    assert a.Snapshot() == State(1, 0, Interval(RefreshFn), 0, None, 1, 0, 0, 0, 0, None, 1, 1);
    a.OnCallbackSettled(Fulfilled(Data("42")));
    assert a.Snapshot() == State(1, 0, NoTimer, 1, None, 1, 0, 1, 0, 0, Some(ReleaseArgs(None, Data("42"))), 1, 0);
    a.OnDelReply(None);
    outcome, claims, dels := a.outcome, a.setNx, a.del;
  }

  /** Two held replies, then a successful claim whose callback throws "boom";
      the holder also calls `release` afterwards. The promise rejects with
      "boom" and exactly one DEL is sent. */
  method ThrowingCallbackRejects() returns (outcome: Option<Settlement>, claims: nat, dels: nat)
    ensures outcome == Some(Rejected(Raised("boom")))
    ensures claims == 3 && dels == 1
  {
    var a := new Attempt(Config(Unbounded, Unbounded));
    a.Start(true, Some("job"), true);
    assert a.Snapshot() == State(1, 0, NoTimer, 0, None, 1, 0, 0, 1, 0, None, 0, 0);
    a.OnClaimReply(ClaimHeld, Returned);
    assert a.Snapshot() == State(1, 0, Interval(RequestFn), 0, None, 1, 0, 0, 0, 0, None, 0, 0);
    a.OnRequestTick();
    assert a.Snapshot() == State(2, 0, Interval(RequestFn), 0, None, 2, 0, 0, 1, 0, None, 0, 0);
    a.OnClaimReply(ClaimHeld, Returned);
    assert a.Snapshot() == State(2, 0, Interval(RequestFn), 0, None, 2, 0, 0, 0, 0, None, 0, 0);
    a.OnRequestTick();
    assert a.Snapshot() == State(3, 0, Interval(RequestFn), 0, None, 3, 0, 0, 1, 0, None, 0, 0);
    a.OnClaimReply(ClaimOk, Threw(Some(Raised("boom"))));
    assert a.Snapshot() == State(3, 0, NoTimer, 1, None, 3, 0, 1, 0, 0, Some(ReleaseArgs(Some(Raised("boom")), Undefined)), 1, 0);
    a.Release(None, Data("late"));
    assert a.Snapshot() == State(3, 0, NoTimer, 2, None, 3, 0, 1, 0, 0, Some(ReleaseArgs(Some(Raised("boom")), Undefined)), 1, 0);
    a.OnDelReply(None);
    outcome, claims, dels := a.outcome, a.setNx, a.del;
  }

  /** The callback succeeds but the DEL fails: the promise rejects with a
      RedisError, not with the callback's value. */
  method DelFailureWins() returns (outcome: Option<Settlement>, dels: nat)
    ensures outcome == Some(Rejected(RedisError("connection lost"))) && dels == 1
  {
    var a := new Attempt(Config(Unbounded, Unbounded));
    a.Start(true, Some("job"), true);
    assert a.Snapshot() == State(1, 0, NoTimer, 0, None, 1, 0, 0, 1, 0, None, 0, 0);
    a.OnClaimReply(ClaimOk, Returned);
    assert a.Snapshot() == State(1, 0, Interval(RefreshFn), 0, None, 1, 0, 0, 0, 0, None, 1, 1);
    a.OnCallbackSettled(Fulfilled(Data("42")));
    assert a.Snapshot() == State(1, 0, NoTimer, 1, None, 1, 0, 1, 0, 0, Some(ReleaseArgs(None, Data("42"))), 1, 0);
    a.OnDelReply(Some("connection lost"));
    outcome, dels := a.outcome, a.del;
  }

  /** Two claims are in flight when the first one succeeds. The holder
      releases at once, which clears the keepalive interval and sends the
      DEL. The second claim's "held" reply, sent before the DEL and so
      answered before it, finds no interval and restarts polling. The DEL
      resolves the promise, the next claim takes the now free key and the
      callback runs a second time. Its release is swallowed by the
      `released` guard, so the keepalive interval stays live and no second
      DEL is ever sent. */
  method LateHeldReplyReclaims() returns (outcome: Option<Settlement>, calls: nat, dels: nat, timer: Timer)
    ensures outcome == Some(Resolved(Data("42")))
    ensures calls == 2 && dels == 1 && timer == Interval(RefreshFn)
  {
    var a := new Attempt(Config(Unbounded, Unbounded));
    a.Start(true, Some("job"), true);
    assert a.Snapshot() == State(1, 0, NoTimer, 0, None, 1, 0, 0, 1, 0, None, 0, 0);
    a.OnClaimReply(ClaimHeld, Returned);
    assert a.Snapshot() == State(1, 0, Interval(RequestFn), 0, None, 1, 0, 0, 0, 0, None, 0, 0);
    a.OnRequestTick();
    assert a.Snapshot() == State(2, 0, Interval(RequestFn), 0, None, 2, 0, 0, 1, 0, None, 0, 0);
    a.OnRequestTick();
    assert a.Snapshot() == State(3, 0, Interval(RequestFn), 0, None, 3, 0, 0, 2, 0, None, 0, 0);
    a.OnClaimReply(ClaimOk, Returned);
    assert a.Snapshot() == State(3, 0, Interval(RefreshFn), 0, None, 3, 0, 0, 1, 0, None, 1, 1);
    a.Release(None, Data("42"));
    assert a.Snapshot() == State(3, 0, NoTimer, 1, None, 3, 0, 1, 1, 0, Some(ReleaseArgs(None, Data("42"))), 1, 1);
    a.OnClaimReply(ClaimHeld, Returned);
    assert a.Snapshot() == State(3, 0, Interval(RequestFn), 1, None, 3, 0, 1, 0, 0, Some(ReleaseArgs(None, Data("42"))), 1, 1);
    a.OnDelReply(None);
    assert a.Snapshot() == State(3, 0, Interval(RequestFn), 1, Some(Resolved(Data("42"))), 3, 0, 1, 0, 0, None, 1, 1);
    a.OnRequestTick();
    assert a.Snapshot() == State(4, 0, Interval(RequestFn), 1, Some(Resolved(Data("42"))), 4, 0, 1, 1, 0, None, 1, 1);
    a.OnClaimReply(ClaimOk, Returned);
    assert a.Snapshot() == State(4, 0, Interval(RefreshFn), 1, Some(Resolved(Data("42"))), 4, 0, 1, 0, 0, None, 2, 2);
    a.OnCallbackSettled(Fulfilled(Data("again")));
    outcome, calls, dels, timer := a.outcome, a.callbacks, a.del, a.timer;
  }

  /** A claim error does not stop claims already in flight. Two claims are
      outstanding when the first one fails: the promise rejects with a
      RedisError and the interval is cleared. The second one's "held" reply
      then finds no interval and restarts polling, and the next claim takes
      the key and calls the callback, with the keepalive interval live. */
  method RetryAfterClaimError() returns (outcome: Option<Settlement>, claims: nat, calls: nat, timer: Timer)
    ensures outcome == Some(Rejected(RedisError("connection lost")))
    ensures claims == 4 && calls == 1 && timer == Interval(RefreshFn)
  {
    var a := new Attempt(Config(Unbounded, Unbounded));
    a.Start(true, Some("job"), true);
    assert a.Snapshot() == State(1, 0, NoTimer, 0, None, 1, 0, 0, 1, 0, None, 0, 0);
    a.OnClaimReply(ClaimHeld, Returned);
    assert a.Snapshot() == State(1, 0, Interval(RequestFn), 0, None, 1, 0, 0, 0, 0, None, 0, 0);
    a.OnRequestTick();
    assert a.Snapshot() == State(2, 0, Interval(RequestFn), 0, None, 2, 0, 0, 1, 0, None, 0, 0);
    a.OnRequestTick();
    assert a.Snapshot() == State(3, 0, Interval(RequestFn), 0, None, 3, 0, 0, 2, 0, None, 0, 0);
    a.OnClaimReply(ClaimFailed("connection lost"), Returned);
    assert a.Snapshot() == State(3, 0, NoTimer, 0, Some(Rejected(RedisError("connection lost"))), 3, 0, 0, 1, 0, None, 0, 0);
    a.OnClaimReply(ClaimHeld, Returned);
    assert a.Snapshot() == State(3, 0, Interval(RequestFn), 0, Some(Rejected(RedisError("connection lost"))), 3, 0, 0, 0, 0, None, 0, 0);
    a.OnRequestTick();
    assert a.Snapshot() == State(4, 0, Interval(RequestFn), 0, Some(Rejected(RedisError("connection lost"))), 4, 0, 0, 1, 0, None, 0, 0);
    a.OnClaimReply(ClaimOk, Returned);
    outcome, claims, calls, timer := a.outcome, a.setNx, a.callbacks, a.timer;
  }
}
