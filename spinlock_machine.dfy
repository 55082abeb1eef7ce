/** The per-call state machine of `acquire` in lib/spinlock.js, as a pure
    transition system. One `State` is the closure of one `acquire` call: the
    counters `requests`, `refreshes` and `released`, the single interval handle,
    and the outer promise (`outcome`, written at most once). Every Redis reply,
    interval tick, settlement of the callback's result and call of `release` by
    the holder is an `Event`; Redis, the clock and the holder choose which event
    comes next. The class `Spinlock.Attempt` performs the same transitions in
    place. */
module SpinlockMachine {
  import opened Common
  import opened Options

  const NoClientMessage := "Unable to connect to redis"
  const NameMessage := "Acquire name is not a string"
  const CallbackMessage := "Acquire callback is not a function"
  const MaxAttemptsMessage := "Max attempts reached"
  const KeepaliveMessage := "Lock keepalive timeout"

  /** Why the promise was rejected: the three error kinds of lib/errors.js,
      JavaScript's TypeError, an error raised by the holder, or a polling
      function that `next` was given without an interval time. */
  datatype Reason =
    | RedisError(message: string)
    | AcquireError(message: string)
    | LockError(message: string)
    | TypeError(message: string)
    | Raised(message: string)
    | HandlerRejected(handler: Handler)

  datatype Settlement = Resolved(value: Value) | Rejected(reason: Reason)

  /** The `(err, data)` a DEL callback closes over. `None` is a missing or
      falsy `err`. */
  datatype ReleaseArgs = ReleaseArgs(err: Option<Reason>, data: Value)

  /** What the synchronous call `cb(release)` did: returned (the result is
      awaited), or threw (`release(err)` runs at once). */
  datatype CallbackCall = Returned | Threw(err: Option<Reason>)

  /** How the awaited callback result settled. */
  datatype CallbackResult = Fulfilled(data: Value) | Failed(err: Option<Reason>)

  /** The argument list of `next(handler, time)`. */
  datatype NextArg = NoHandler | Poll(handler: Handler, time: nat) | Abort(reason: Reason)

  datatype State = State(
    requests: nat,            // post-incremented by every request()
    refreshes: nat,           // post-incremented by every refresh()
    timer: Timer,             // the one interval handle
    released: nat,            // post-incremented by every release()
    outcome: Option<Settlement>, // the outer promise
    setNx: nat,               // claim SETs issued
    setPx: nat,               // refresh SETs issued
    del: nat,                 // DELs issued
    pendingClaims: nat,       // claim SETs not yet answered
    pendingRefreshes: nat,    // refresh SETs not yet answered
    pendingDel: Option<ReleaseArgs>, // the DEL not yet answered
    callbacks: nat,           // calls of cb(release)
    awaiting: nat)            // callback results not yet settled

  /** The closure right after its variables are declared. */
  function Initial(): State
  {
    State(0, 0, NoTimer, 0, None, 0, 0, 0, 0, 0, None, 0, 0)
  }

  /** `resolve` / `reject`: only the first one has an effect. */
  function Settle(s: State, r: Settlement): State
  {
    if s.outcome.None? then s.(outcome := Some(r)) else s
  }

  /** `next(handler, time)`: clear the interval; then start a new one, or, for a
      handler without a (non-zero) time, reject with the handler. */
  function Next(s: State, arg: NextArg): State
  {
    var cleared := s.(timer := NoTimer);
    match arg
    case NoHandler => cleared
    case Poll(h, time) =>
      if time > 0 then cleared.(timer := Interval(h)) else Settle(cleared, Rejected(HandlerRejected(h)))
    case Abort(r) => Settle(cleared, Rejected(r))
  }

  /** `request()`: check the attempt ceiling, then issue `SET NX`. */
  function Request(s: State, cfg: Settings): State
  {
    if Reached(s.requests, cfg.attempts) then
      Next(s.(requests := s.requests + 1), Abort(AcquireError(MaxAttemptsMessage)))
    else
      s.(requests := s.requests + 1, setNx := s.setNx + 1, pendingClaims := s.pendingClaims + 1)
  }

  /** `refresh()`: check the keepalive ceiling, then issue `SET PX`. */
  function Refresh(s: State, cfg: Settings): State
  {
    if Reached(s.refreshes, cfg.keepalives) then
      Next(s.(refreshes := s.refreshes + 1), Abort(LockError(KeepaliveMessage)))
    else
      s.(refreshes := s.refreshes + 1, setPx := s.setPx + 1, pendingRefreshes := s.pendingRefreshes + 1)
  }

  /** The promise a given `err` and `data` settle to. */
  function Verdict(err: Option<Reason>, data: Value): Settlement
  {
    if err.Some? then Rejected(err.value) else Resolved(data)
  }

  /** `release(err, data)`: guarded by the post-incremented `released`. */
  function DoRelease(s: State, cfg: Settings, err: Option<Reason>, data: Value): State
  {
    if s.released > 0 then s.(released := s.released + 1)
    else
      var t := Next(s.(released := 1), NoHandler);
      if cfg.autorelease then t.(del := t.del + 1, pendingDel := Some(ReleaseArgs(err, data)))
      else Settle(t, Verdict(err, data))
  }

  /** The argument checks of `acquire`, in the order the source makes them. */
  function Validation(hasClient: bool, name: Option<string>, callbackIsFunction: bool): Option<Reason>
  {
    if !hasClient then Some(RedisError(NoClientMessage))
    else if name.None? then Some(TypeError(NameMessage))
    else if !callbackIsFunction then Some(TypeError(CallbackMessage))
    else None
  }

  /** The promise executor: validate, then make the first claim. */
  function Begin(cfg: Settings, hasClient: bool, name: Option<string>, callbackIsFunction: bool): State
  {
    match Validation(hasClient, name, callbackIsFunction)
    case Some(r) => Settle(Initial(), Rejected(r))
    case None => Request(Initial(), cfg)
  }

  /** The `'OK'` branch of the claim reply: the keepalive interval replaces
      the live one, then `cb(release)` is called; its result is awaited, or
      its synchronous throw releases at once. */
  function Acquired(s: State, cfg: Settings, call: CallbackCall): State
  {
    var s2 := Next(s, Poll(RefreshFn, cfg.keepalive)).(callbacks := s.callbacks + 1);
    match call
    case Returned => s2.(awaiting := s2.awaiting + 1)
    case Threw(e) => DoRelease(s2, cfg, e, Undefined)
  }

  /** The reply callback of `SET NX`. */
  function OnClaimReply(s: State, cfg: Settings, reply: ClaimReply, call: CallbackCall): State
    requires s.pendingClaims > 0
  {
    var s1 := s.(pendingClaims := s.pendingClaims - 1);
    match reply
    case ClaimFailed(m) => Next(s1, Abort(RedisError(m)))
    case ClaimOk => Acquired(s1, cfg, call)
    case ClaimHeld =>
      if s1.timer == NoTimer then Next(s1, Poll(RequestFn, cfg.attempt)) else s1
  }

  /** The reply callback of `SET PX`. */
  function OnRefreshReply(s: State, failure: Option<string>): State
    requires s.pendingRefreshes > 0
  {
    var s1 := s.(pendingRefreshes := s.pendingRefreshes - 1);
    if failure.Some? then Next(s1, Abort(RedisError(failure.value))) else s1
  }

  /** The `then` handlers on the callback's result. */
  function OnCallbackSettled(s: State, cfg: Settings, r: CallbackResult): State
    requires s.awaiting > 0
  {
    var s1 := s.(awaiting := s.awaiting - 1);
    match r
    case Fulfilled(d) => DoRelease(s1, cfg, None, d)
    case Failed(e) => DoRelease(s1, cfg, e, Undefined)
  }

  /** The reply callback of `DEL`: a DEL error wins over `err`, `err` over `data`. */
  function OnDelReply(s: State, failure: Option<string>): State
    requires s.pendingDel.Some?
  {
    var p := s.pendingDel.value;
    Settle(s.(pendingDel := None),
           if failure.Some? then Rejected(RedisError(failure.value)) else Verdict(p.err, p.data))
  }

  datatype Event =
    | RequestTick
    | ClaimReplied(reply: ClaimReply, call: CallbackCall)
    | RefreshTick
    | RefreshReplied(failure: Option<string>)
    | HolderRelease(err: Option<Reason>, data: Value)
    | CallbackSettled(result: CallbackResult)
    | DelReplied(failure: Option<string>)

  /** An event can happen: a tick needs its interval live, a reply needs its
      command outstanding, the holder needs to have been given `release`. */
  predicate Enabled(s: State, e: Event)
  {
    match e
    case RequestTick => s.timer == Interval(RequestFn)
    case ClaimReplied(_, _) => s.pendingClaims > 0
    case RefreshTick => s.timer == Interval(RefreshFn)
    case RefreshReplied(_) => s.pendingRefreshes > 0
    case HolderRelease(_, _) => s.callbacks > 0
    case CallbackSettled(_) => s.awaiting > 0
    case DelReplied(_) => s.pendingDel.Some?
  }

  function Step(s: State, cfg: Settings, e: Event): State
    requires Enabled(s, e)
  {
    match e
    case RequestTick => Request(s, cfg)
    case ClaimReplied(reply, call) => OnClaimReply(s, cfg, reply, call)
    case RefreshTick => Refresh(s, cfg)
    case RefreshReplied(f) => OnRefreshReply(s, f)
    case HolderRelease(err, data) => DoRelease(s, cfg, err, data)
    case CallbackSettled(r) => OnCallbackSettled(s, cfg, r)
    case DelReplied(f) => OnDelReply(s, f)
  }

  /** One event, dropped when it cannot happen in the current state. */
  function Deliver(s: State, cfg: Settings, e: Event): State
  {
    if Enabled(s, e) then Step(s, cfg, e) else s
  }

  /** Deliver events in order, the last one last; since events that cannot
      happen are dropped, `Run` covers every order of events that can happen. */
  function Run(s: State, cfg: Settings, es: seq<Event>): State
    decreases |es|
  {
    if es == [] then s
    else Deliver(Run(s, cfg, es[..|es| - 1]), cfg, es[|es| - 1])
  }

  /** What stays true of one attempt through every event. */
  ghost predicate Inv(s: State, cfg: Settings)
  {
    // at most `attempts` claims and `keepalives` refreshes are ever sent
    && s.setNx == Capped(s.requests, cfg.attempts)
    && s.setPx == Capped(s.refreshes, cfg.keepalives)
    && s.pendingClaims <= s.setNx
    && s.pendingRefreshes <= s.setPx
    // one DEL, exactly when the attempt was released with autorelease on
    && (s.del == if s.released > 0 && cfg.autorelease then 1 else 0)
    && (s.pendingDel.Some? ==> s.del == 1)
    // a release that issued no DEL, or whose DEL was answered, settled the promise
    && (s.released > 0 && s.pendingDel.None? ==> s.outcome.Some?)
    // nothing of the holding phase happens before the callback is called
    && (s.callbacks == 0 ==>
          s.timer != Interval(RefreshFn) && s.refreshes == 0 && s.released == 0 && s.awaiting == 0)
  }

  lemma BeginInv(cfg: Settings, hasClient: bool, name: Option<string>, callbackIsFunction: bool)
    ensures Inv(Begin(cfg, hasClient, name, callbackIsFunction), cfg)
  {
  }

  lemma DoReleaseInv(s: State, cfg: Settings, err: Option<Reason>, data: Value)
    requires Inv(s, cfg) && s.callbacks > 0
    ensures Inv(DoRelease(s, cfg, err, data), cfg)
  {
  }

  lemma RequestInv(s: State, cfg: Settings)
    requires Inv(s, cfg)
    ensures Inv(Request(s, cfg), cfg)
  {
  }

  lemma RefreshInv(s: State, cfg: Settings)
    requires Inv(s, cfg) && s.callbacks > 0
    ensures Inv(Refresh(s, cfg), cfg)
  {
  }

  lemma AcquiredInv(s: State, cfg: Settings, call: CallbackCall)
    requires Inv(s, cfg)
    ensures Inv(Acquired(s, cfg, call), cfg)
  {
    var s2 := Next(s, Poll(RefreshFn, cfg.keepalive)).(callbacks := s.callbacks + 1);
    assert Inv(s2, cfg);
    if call.Threw? {
      DoReleaseInv(s2, cfg, call.err, Undefined);
    }
  }

  lemma ClaimReplyInv(s: State, cfg: Settings, reply: ClaimReply, call: CallbackCall)
    requires Inv(s, cfg) && s.pendingClaims > 0
    ensures Inv(OnClaimReply(s, cfg, reply, call), cfg)
  {
    if reply.ClaimOk? {
      AcquiredInv(s.(pendingClaims := s.pendingClaims - 1), cfg, call);
    }
  }

  lemma CallbackSettledInv(s: State, cfg: Settings, r: CallbackResult)
    requires Inv(s, cfg) && s.awaiting > 0
    ensures Inv(OnCallbackSettled(s, cfg, r), cfg)
  {
    var s1 := s.(awaiting := s.awaiting - 1);
    match r
    case Fulfilled(d) => DoReleaseInv(s1, cfg, None, d);
    case Failed(e) => DoReleaseInv(s1, cfg, e, Undefined);
  }

  lemma StepInv(s: State, cfg: Settings, e: Event)
    requires Inv(s, cfg) && Enabled(s, e)
    ensures Inv(Step(s, cfg, e), cfg)
  {
    match e
    case RequestTick => RequestInv(s, cfg);
    case ClaimReplied(reply, call) => ClaimReplyInv(s, cfg, reply, call);
    case RefreshTick => RefreshInv(s, cfg);
    case RefreshReplied(f) =>
    case HolderRelease(err, data) => DoReleaseInv(s, cfg, err, data);
    case CallbackSettled(r) => CallbackSettledInv(s, cfg, r);
    case DelReplied(f) =>
  }

  lemma {:induction false} RunInv(s: State, cfg: Settings, es: seq<Event>)
    requires Inv(s, cfg)
    ensures Inv(Run(s, cfg, es), cfg)
    decreases |es|
  {
    if es != [] {
      var before := Run(s, cfg, es[..|es| - 1]);
      RunInv(s, cfg, es[..|es| - 1]);
      if Enabled(before, es[|es| - 1]) { StepInv(before, cfg, es[|es| - 1]); }
    }
  }

  // ---------------------------------------------------------------------
  // Properties of one acquire call
  // ---------------------------------------------------------------------

  /** The argument checks run in the order client, name, callback; a failing
      check rejects the promise with its own error and nothing is sent to Redis.
      When all pass, the first claim is made at once, unless `attempts` is 0. */
  lemma ValidationOrder(cfg: Settings, hasClient: bool, name: Option<string>, callbackIsFunction: bool)
    ensures var s := Begin(cfg, hasClient, name, callbackIsFunction);
      && (!hasClient ==> s.outcome == Some(Rejected(RedisError(NoClientMessage))))
      && (hasClient && name.None? ==> s.outcome == Some(Rejected(TypeError(NameMessage))))
      && (hasClient && name.Some? && !callbackIsFunction ==>
            s.outcome == Some(Rejected(TypeError(CallbackMessage))))
      && (Validation(hasClient, name, callbackIsFunction).Some? ==>
            s.setNx == 0 && s.timer == NoTimer && s.requests == 0)
      && (Validation(hasClient, name, callbackIsFunction).None? ==>
            && s.requests == 1
            && (s.setNx == 1 <==> !Reached(0, cfg.attempts))
            && (s.outcome.Some? <==> Reached(0, cfg.attempts)))
  {
  }

  /** After a failed argument check no event can happen: the attempt never
      sends anything and its rejection stands. */
  lemma {:induction false} ValidationFailureIsFinal(cfg: Settings, hasClient: bool, name: Option<string>,
                                                    callbackIsFunction: bool, es: seq<Event>)
    requires Validation(hasClient, name, callbackIsFunction).Some?
    ensures Run(Begin(cfg, hasClient, name, callbackIsFunction), cfg, es)
         == Begin(cfg, hasClient, name, callbackIsFunction)
    decreases |es|
  {
    if es != [] {
      ValidationFailureIsFinal(cfg, hasClient, name, callbackIsFunction, es[..|es| - 1]);
      assert !Enabled(Begin(cfg, hasClient, name, callbackIsFunction), es[|es| - 1]);
    }
  }

  /** The counting bounds over every run of one attempt: at most `attempts`
      claim SETs (none when `attempts` is 0), at most `keepalives` refresh SETs,
      at most one DEL; and before the callback is called, no refresh and no DEL. */
  lemma Ceilings(cfg: Settings, hasClient: bool, name: Option<string>, callbackIsFunction: bool, es: seq<Event>)
    ensures var t := Run(Begin(cfg, hasClient, name, callbackIsFunction), cfg, es);
      && (cfg.attempts.Bounded? ==> t.setNx <= cfg.attempts.n)
      && (cfg.keepalives.Bounded? ==> t.setPx <= cfg.keepalives.n)
      && t.del <= 1
      && (t.del == 1 ==> cfg.autorelease && t.released > 0)
      && (t.callbacks == 0 ==> t.setPx == 0 && t.del == 0 && t.timer != Interval(RefreshFn))
  {
    BeginInv(cfg, hasClient, name, callbackIsFunction);
    RunInv(Begin(cfg, hasClient, name, callbackIsFunction), cfg, es);
  }

  /** The claim counter is checked before every claim: below the ceiling a
      SET NX is sent; at the ceiling none is, the interval is cleared and the
      promise is rejected with AcquireError('Max attempts reached'). */
  lemma AttemptCeiling(s: State, cfg: Settings)
    ensures var t := Request(s, cfg);
      && t.requests == s.requests + 1
      && (!Reached(s.requests, cfg.attempts) ==>
            t.setNx == s.setNx + 1 && t.pendingClaims == s.pendingClaims + 1 &&
            t.timer == s.timer && t.outcome == s.outcome)
      && (Reached(s.requests, cfg.attempts) ==>
            && t.setNx == s.setNx && t.timer == NoTimer
            && (s.outcome.None? ==> t.outcome == Some(Rejected(AcquireError(MaxAttemptsMessage))))
            && (s.outcome.Some? ==> t.outcome == s.outcome))
  {
  }

  /** A claim error clears the interval and rejects with RedisError (when the
      promise is still pending); this reply schedules no retry and calls no
      callback, but claims still in flight are not cancelled. A "held" reply,
      in every state, starts polling when no interval is live, even after
      the promise has settled, and otherwise changes nothing. */
  lemma ClaimFailureAndHeld(s: State, cfg: Settings, m: string, call: CallbackCall)
    requires s.pendingClaims > 0
    ensures var t := OnClaimReply(s, cfg, ClaimFailed(m), call);
      && t.timer == NoTimer && t.pendingClaims == s.pendingClaims - 1
      && t.setNx == s.setNx && t.callbacks == s.callbacks && t.del == s.del
      && (s.outcome.None? ==> t.outcome == Some(Rejected(RedisError(m))))
      && (s.outcome.Some? ==> t.outcome == s.outcome)
    ensures var t := OnClaimReply(s, cfg, ClaimHeld, call);
      && (s.timer != NoTimer ==> t == s.(pendingClaims := s.pendingClaims - 1))
      && (s.timer == NoTimer && cfg.attempt > 0 ==>
            t.timer == Interval(RequestFn) && t.outcome == s.outcome && t.setNx == s.setNx)
      && (s.timer == NoTimer && cfg.attempt == 0 ==>
            && t.timer == NoTimer
            && (s.outcome.None? ==> t.outcome == Some(Rejected(HandlerRejected(RequestFn))))
            && (s.outcome.Some? ==> t.outcome == s.outcome))
  {
  }

  /** A successful claim, in every state, replaces whatever interval was live
      by the keepalive interval and then calls the callback once. A returned
      result is awaited. A synchronous throw calls `release(err)`: the first
      release clears the keepalive interval again and sends the DEL (or
      settles directly); a throw after an earlier release is swallowed by the
      guard, so the keepalive interval stays live and no DEL is sent. A
      keepalive time of 0 makes `next` reject with the refresh function, and
      the callback is still called. */
  lemma ClaimSuccess(s: State, cfg: Settings, call: CallbackCall)
    requires s.pendingClaims > 0
    ensures var t := OnClaimReply(s, cfg, ClaimOk, call);
      && t.callbacks == s.callbacks + 1
      && t.setNx == s.setNx
      && (call.Returned? && cfg.keepalive > 0 ==>
            t.timer == Interval(RefreshFn) && t.awaiting == s.awaiting + 1 && t.outcome == s.outcome)
      && (call.Threw? && s.released == 0 ==>
            && t.timer == NoTimer && t.released == 1
            && (cfg.autorelease ==> t.pendingDel == Some(ReleaseArgs(call.err, Undefined)))
            && (!cfg.autorelease && s.outcome.None? && cfg.keepalive > 0 ==>
                  t.outcome == Some(Verdict(call.err, Undefined))))
      && (call.Threw? && s.released > 0 && cfg.keepalive > 0 ==>
            && t.timer == Interval(RefreshFn) && t.released == s.released + 1
            && t.del == s.del && t.pendingDel == s.pendingDel && t.outcome == s.outcome)
      && (cfg.keepalive == 0 && s.outcome.None? ==>
            t.outcome == Some(Rejected(HandlerRejected(RefreshFn))))
  {
  }

  /** The awaited callback result becomes `release(null, data)` when it is
      fulfilled and `release(err)` when it is rejected; after an earlier
      release it only bumps the `released` count. */
  lemma CallbackResultReleases(s: State, cfg: Settings, r: CallbackResult)
    requires s.awaiting > 0
    ensures var t := OnCallbackSettled(s, cfg, r);
      var rel := if r.Fulfilled? then ReleaseArgs(None, r.data) else ReleaseArgs(r.err, Undefined);
      && t.awaiting == s.awaiting - 1
      && (s.released == 0 ==>
            && t.released == 1 && t.timer == NoTimer
            && (cfg.autorelease ==> t.pendingDel == Some(rel) && t.del == s.del + 1 && t.outcome == s.outcome)
            && (!cfg.autorelease ==> t.del == s.del)
            && (!cfg.autorelease && s.outcome.None? ==> t.outcome == Some(Verdict(rel.err, rel.data))))
      && (s.released > 0 ==> t == s.(awaiting := s.awaiting - 1, released := s.released + 1))
  {
  }

  /** At the keepalive ceiling no refresh SET is sent and a pending promise
      is rejected with LockError('Lock keepalive timeout'); a refresh error
      rejects it with RedisError. Both go through `next` alone: the interval
      is cleared and neither marks the attempt released or sends a DEL, so a
      later `release` still sends it. */
  lemma KeepaliveCeilingAndErrors(s: State, cfg: Settings, m: string)
    ensures var t := Refresh(s, cfg);
      && (!Reached(s.refreshes, cfg.keepalives) ==>
            t.setPx == s.setPx + 1 && t.timer == s.timer && t.outcome == s.outcome)
      && (Reached(s.refreshes, cfg.keepalives) ==>
            && t.setPx == s.setPx && t.timer == NoTimer
            && t.del == s.del && t.released == s.released
            && (s.outcome.None? ==> t.outcome == Some(Rejected(LockError(KeepaliveMessage))))
            && (s.outcome.Some? ==> t.outcome == s.outcome))
    ensures s.pendingRefreshes > 0 ==>
      var t := OnRefreshReply(s, Some(m));
      && t.timer == NoTimer && t.del == s.del && t.released == s.released
      && (s.outcome.None? ==> t.outcome == Some(Rejected(RedisError(m))))
      && (s.outcome.Some? ==> t.outcome == s.outcome)
  {
  }

  /** Release is idempotent: only the first call clears the interval and sends
      the DEL (with autorelease); every later call only bumps `released`. */
  lemma ReleaseIdempotent(s: State, cfg: Settings, err: Option<Reason>, data: Value,
                          err2: Option<Reason>, data2: Value)
    ensures s.released == 0 ==>
      var t := DoRelease(s, cfg, err, data);
      && t.released == 1 && t.timer == NoTimer
      && t.del == (if cfg.autorelease then s.del + 1 else s.del)
      && DoRelease(t, cfg, err2, data2) == t.(released := 2)
    ensures s.released > 0 ==> DoRelease(s, cfg, err, data) == s.(released := s.released + 1)
  {
  }

  /** The promise a release settles: with autorelease, a DEL error rejects
      with RedisError even when `err` is missing; otherwise a given `err`
      rejects, and otherwise `data` resolves. Without autorelease no DEL is
      sent and `err`/`data` settle the promise directly. */
  lemma ReleasePriority(s: State, cfg: Settings, err: Option<Reason>, data: Value, failure: Option<string>)
    requires s.released == 0 && s.outcome.None?
    ensures cfg.autorelease ==>
      var t := DoRelease(s, cfg, err, data);
      && t.pendingDel.Some? && t.outcome == None
      && OnDelReply(t, failure).outcome == Some(
           if failure.Some? then Rejected(RedisError(failure.value))
           else if err.Some? then Rejected(err.value)
           else Resolved(data))
    ensures !cfg.autorelease ==>
      var t := DoRelease(s, cfg, err, data);
      t.del == s.del && t.pendingDel == s.pendingDel &&
      t.outcome == Some(if err.Some? then Rejected(err.value) else Resolved(data))
  {
  }

  /** `next` leaves at most one interval: the new handler's when it has a
      non-zero time, none otherwise; a handler without a time, or an error,
      rejects the promise (if still pending). No counter changes. */
  lemma NextLeavesOneInterval(s: State, arg: NextArg)
    ensures var t := Next(s, arg);
      && t.timer == (if arg.Poll? && arg.time > 0 then Interval(arg.handler) else NoTimer)
      && t.(timer := s.timer, outcome := s.outcome) == s
      && (arg.NoHandler? || (arg.Poll? && arg.time > 0) || s.outcome.Some? ==> t.outcome == s.outcome)
      && (s.outcome.None? && arg.Poll? && arg.time == 0 ==>
            t.outcome == Some(Rejected(HandlerRejected(arg.handler))))
      && (s.outcome.None? && arg.Abort? ==> t.outcome == Some(Rejected(arg.reason)))
  {
  }

  /** The promise settles at most once: a settled outcome survives every event. */
  lemma StepKeepsOutcome(s: State, cfg: Settings, e: Event)
    requires Enabled(s, e) && s.outcome.Some?
    ensures Step(s, cfg, e).outcome == s.outcome
  {
  }

  lemma {:induction false} RunKeepsOutcome(s: State, cfg: Settings, es: seq<Event>)
    requires s.outcome.Some?
    ensures Run(s, cfg, es).outcome == s.outcome
    decreases |es|
  {
    if es != [] {
      var before := Run(s, cfg, es[..|es| - 1]);
      RunKeepsOutcome(s, cfg, es[..|es| - 1]);
      if Enabled(before, es[|es| - 1]) { StepKeepsOutcome(before, cfg, es[|es| - 1]); }
    }
  }
}
