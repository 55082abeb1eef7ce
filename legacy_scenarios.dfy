/** Whole runs of one `acquire` call of index.js, driven through
    `Legacy.LegacyAttempt` against a scripted Redis and a scripted holder.
    After each event the whole state is written out, in the field order of
    `LegacyMachine.State`: requests, keepalives, timer, outcome, SET NX,
    SET PX and DEL counts, outstanding claims, refreshes and DELs, callbacks. */
module LegacyScenarios {
  import opened Common
  import opened LegacyMachine
  import opened Legacy

  /** With `requests = 3` and a key that stays held, the counter is checked
      before it is incremented, so it is the fourth held reply that rejects
      "REQUEST_TIMEOUT": four claims are sent, and polling stops. */
  method LegacyRequestCeiling() returns (outcome: Option<Settlement>, claims: nat, timer: Timer)
    ensures outcome == Some(Rejected(Code(RequestTimeout)))
    ensures claims == 4 && timer == NoTimer
  {
    var a := new LegacyAttempt(LegacySettings(500, 100, Bounded(3), 100, Unbounded));
    a.Start(Some("job"), true, true);
    assert a.Snapshot() == State(0, 0, NoTimer, None, 1, 0, 0, 1, 0, [], 0);
    a.OnClaimReply(ClaimHeld);
    assert a.Snapshot() == State(1, 0, Interval(RequestFn), None, 1, 0, 0, 0, 0, [], 0);
    a.OnRequestTick();
    assert a.Snapshot() == State(1, 0, Interval(RequestFn), None, 2, 0, 0, 1, 0, [], 0);
    a.OnClaimReply(ClaimHeld);
    assert a.Snapshot() == State(2, 0, Interval(RequestFn), None, 2, 0, 0, 0, 0, [], 0);
    a.OnRequestTick();
    assert a.Snapshot() == State(2, 0, Interval(RequestFn), None, 3, 0, 0, 1, 0, [], 0);
    a.OnClaimReply(ClaimHeld);
    assert a.Snapshot() == State(3, 0, Interval(RequestFn), None, 3, 0, 0, 0, 0, [], 0);
    a.OnRequestTick();
    assert a.Snapshot() == State(3, 0, Interval(RequestFn), None, 4, 0, 0, 1, 0, [], 0);
    a.OnClaimReply(ClaimHeld);
    outcome, claims, timer := a.outcome, a.setNx, a.timer;
  }

  /** With `keepalives = 2`, the counter is checked only after a successful
      refresh, so the third success rejects "REFRESH_TIMEOUT" after three
      refreshes, and no DEL is sent. */
  method LegacyKeepaliveCeiling() returns (outcome: Option<Settlement>, refreshes: nat, dels: nat)
    ensures outcome == Some(Rejected(Code(RefreshTimeout)))
    ensures refreshes == 3 && dels == 0
  {
    var a := new LegacyAttempt(LegacySettings(500, 100, Unbounded, 100, Bounded(2)));
    a.Start(Some("job"), true, true);
    assert a.Snapshot() == State(0, 0, NoTimer, None, 1, 0, 0, 1, 0, [], 0);
    a.OnClaimReply(ClaimOk);
    assert a.Snapshot() == State(0, 0, Interval(RefreshFn), None, 1, 0, 0, 0, 0, [], 1);
    a.OnRefreshTick();
    assert a.Snapshot() == State(0, 0, Interval(RefreshFn), None, 1, 1, 0, 0, 1, [], 1);
    a.OnRefreshReply(None);
    assert a.Snapshot() == State(0, 1, Interval(RefreshFn), None, 1, 1, 0, 0, 0, [], 1);
    a.OnRefreshTick();
    assert a.Snapshot() == State(0, 1, Interval(RefreshFn), None, 1, 2, 0, 0, 1, [], 1);
    a.OnRefreshReply(None);
    assert a.Snapshot() == State(0, 2, Interval(RefreshFn), None, 1, 2, 0, 0, 0, [], 1);
    a.OnRefreshTick();
    assert a.Snapshot() == State(0, 2, Interval(RefreshFn), None, 1, 3, 0, 0, 1, [], 1);
    a.OnRefreshReply(None);
    outcome, refreshes, dels := a.outcome, a.setPx, a.del;
  }

  /** The holder calls `release` twice: two DELs are sent, and the first DEL
      reply decides the promise. */
  method LegacyDoubleRelease() returns (outcome: Option<Settlement>, dels: nat)
    ensures outcome == Some(Resolved(Data("first")))
    ensures dels == 2
  {
    var a := new LegacyAttempt(LegacyDefaults);
    a.Start(Some("job"), true, true);
    assert a.Snapshot() == State(0, 0, NoTimer, None, 1, 0, 0, 1, 0, [], 0);
    a.OnClaimReply(ClaimOk);
    assert a.Snapshot() == State(0, 0, Interval(RefreshFn), None, 1, 0, 0, 0, 0, [], 1);
    a.Release(None, Data("first"));
    assert a.Snapshot() == State(0, 0, NoTimer, None, 1, 0, 1, 0, 0, [ReleaseArgs(None, Data("first"))], 1);
    a.Release(Some(Raised("second")), Undefined);
    assert a.Snapshot() == State(0, 0, NoTimer, None, 1, 0, 2, 0, 0,
                                 [ReleaseArgs(None, Data("first")), ReleaseArgs(Some(Raised("second")), Undefined)], 1);
    a.OnDelReply(None);
    assert a.Snapshot() == State(0, 0, NoTimer, Some(Resolved(Data("first"))), 1, 0, 2, 0, 0,
                                 [ReleaseArgs(Some(Raised("second")), Undefined)], 1);
    a.OnDelReply(None);
    outcome, dels := a.outcome, a.del;
  }

  /** A failing DEL rejects "RELEASE_ERROR" although the holder released with
      a value. */
  method LegacyDelFailure() returns (outcome: Option<Settlement>)
    ensures outcome == Some(Rejected(Code(ReleaseError)))
  {
    var a := new LegacyAttempt(LegacyDefaults);
    a.Start(Some("job"), true, true);
    assert a.Snapshot() == State(0, 0, NoTimer, None, 1, 0, 0, 1, 0, [], 0);
    a.OnClaimReply(ClaimOk);
    assert a.Snapshot() == State(0, 0, Interval(RefreshFn), None, 1, 0, 0, 0, 0, [], 1);
    a.Release(None, Data("42"));
    assert a.Snapshot() == State(0, 0, NoTimer, None, 1, 0, 1, 0, 0, [ReleaseArgs(None, Data("42"))], 1);
    a.OnDelReply(Some("connection lost"));
    outcome := a.outcome;
  }

  /** An empty name is refused before anything is sent. */
  method LegacyEmptyName() returns (outcome: Option<Settlement>, claims: nat)
    ensures outcome == Some(Rejected(Code(NameError))) && claims == 0
  {
    var a := new LegacyAttempt(LegacyDefaults);
    a.Start(Some(""), true, true);
    outcome, claims := a.outcome, a.setNx;
  }

  /** A claim error does not stop claims already in flight. Two claims are
      outstanding when the first one fails: the promise rejects
      "REQUEST_ERROR" and the interval is cleared. The second one's "held"
      reply then finds no interval and restarts polling, and the next claim
      takes the key and calls the callback, with the keepalive interval live. */
  method LegacyRetryAfterClaimError() returns (outcome: Option<Settlement>, claims: nat, calls: nat, timer: Timer)
    ensures outcome == Some(Rejected(Code(RequestError)))
    ensures claims == 4 && calls == 1 && timer == Interval(RefreshFn)
  {
    var a := new LegacyAttempt(LegacyDefaults);
    a.Start(Some("job"), true, true);
    assert a.Snapshot() == State(0, 0, NoTimer, None, 1, 0, 0, 1, 0, [], 0);
    a.OnClaimReply(ClaimHeld);
    assert a.Snapshot() == State(1, 0, Interval(RequestFn), None, 1, 0, 0, 0, 0, [], 0);
    a.OnRequestTick();
    assert a.Snapshot() == State(1, 0, Interval(RequestFn), None, 2, 0, 0, 1, 0, [], 0);
    a.OnRequestTick();
    assert a.Snapshot() == State(1, 0, Interval(RequestFn), None, 3, 0, 0, 2, 0, [], 0);
    a.OnClaimReply(ClaimFailed("connection lost"));
    assert a.Snapshot() == State(1, 0, NoTimer, Some(Rejected(Code(RequestError))), 3, 0, 0, 1, 0, [], 0);
    a.OnClaimReply(ClaimHeld);
    assert a.Snapshot() == State(2, 0, Interval(RequestFn), Some(Rejected(Code(RequestError))), 3, 0, 0, 0, 0, [], 0);
    a.OnRequestTick();
    assert a.Snapshot() == State(2, 0, Interval(RequestFn), Some(Rejected(Code(RequestError))), 4, 0, 0, 1, 0, [], 0);
    a.OnClaimReply(ClaimOk);
    outcome, claims, calls, timer := a.outcome, a.setNx, a.callbacks, a.timer;
  }
}
