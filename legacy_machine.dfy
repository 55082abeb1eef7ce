/** The per-call state machine of `acquire` in index.js, the older version of
    the lock, as a pure transition system. Where it differs from
    lib/spinlock.js: rejections are string codes; the arguments are checked
    in the order name, callback, client, and the empty name is refused; the
    claim counter is checked and incremented only when a claim finds the key
    held, the keepalive counter only when a refresh succeeds; there is no
    `autorelease` and there are no per-call options; the callback's result
    is ignored; and `release` has no guard, so every call clears the
    interval and sends its own DEL. The class `Legacy.LegacyAttempt`
    performs the same transitions in place. */
module LegacyMachine {
  import opened Common

  const NameError := "NAME_ERROR"
  const CallbackError := "CALLBACK_ERROR"
  const NoClientError := "REDIS_ERROR"
  const RequestError := "REQUEST_ERROR"
  const RequestTimeout := "REQUEST_TIMEOUT"
  const RefreshError := "REFRESH_ERROR"
  const RefreshTimeout := "REFRESH_TIMEOUT"
  const ReleaseError := "RELEASE_ERROR"

  /** The options `acquire` reads; `request` and `keepalive` are interval
      times, `requests` and `keepalives` the two ceilings. */
  datatype LegacySettings = LegacySettings(
    timeout: nat,
    request: nat,
    requests: Limit,
    keepalive: nat,
    keepalives: Limit)

  /** The factory's defaults. */
  const LegacyDefaults := LegacySettings(500, 100, Unbounded, 100, Unbounded)

  /** Why the promise was rejected: one of the string codes, a polling
      function handed to `next` without a time, or an error of the holder. */
  datatype Reason = Code(code: string) | HandlerRejected(handler: Handler) | Raised(message: string)

  datatype Settlement = Resolved(value: Value) | Rejected(reason: Reason)

  /** The `(err, data)` one DEL callback closes over; `None` is a falsy `err`. */
  datatype ReleaseArgs = ReleaseArgs(err: Option<Reason>, data: Value)

  /** The argument list of `next(handler, time)`. */
  datatype NextArg = NoHandler | Poll(handler: Handler, time: nat) | Abort(code: string)

  datatype State = State(
    requests: nat,            // held claim replies seen (post-incremented)
    keepalives: nat,          // successful refresh replies seen (post-incremented)
    timer: Timer,             // the one interval handle
    outcome: Option<Settlement>, // the outer promise
    setNx: nat,               // claim SETs issued
    setPx: nat,               // refresh SETs issued
    del: nat,                 // DELs issued, one per release call
    pendingClaims: nat,       // claim SETs not yet answered
    pendingRefreshes: nat,    // refresh SETs not yet answered
    pendingDels: seq<ReleaseArgs>, // DELs not yet answered, oldest first
    callbacks: nat)           // calls of cb(release)

  function Initial(): State
  {
    State(0, 0, NoTimer, None, 0, 0, 0, 0, 0, [], 0)
  }

  /** `resolve` / `reject`: only the first one has an effect. */
  function Settle(s: State, r: Settlement): State
  {
    if s.outcome.None? then s.(outcome := Some(r)) else s
  }

  /** `next(handler, time)`: clear the interval; then start a new one, or, for a
      handler without a (non-zero) time, reject with the handler. */
  function Next(s: State, arg: NextArg): State
  {
    var cleared := s.(timer := NoTimer);
    match arg
    case NoHandler => cleared
    case Poll(h, time) =>
      if time > 0 then cleared.(timer := Interval(h)) else Settle(cleared, Rejected(HandlerRejected(h)))
    case Abort(c) => Settle(cleared, Rejected(Code(c)))
  }

  /** `request()`: an unconditional `SET NX`. */
  function Request(s: State): State
  {
    s.(setNx := s.setNx + 1, pendingClaims := s.pendingClaims + 1)
  }

  /** `keepalive()`: an unconditional `SET PX`. */
  function Keepalive(s: State): State
  {
    s.(setPx := s.setPx + 1, pendingRefreshes := s.pendingRefreshes + 1)
  }

  /** `release(err, data)`: clear the interval and send a DEL, every time. */
  function Release(s: State, err: Option<Reason>, data: Value): State
  {
    var t := Next(s, NoHandler);
    t.(del := t.del + 1, pendingDels := t.pendingDels + [ReleaseArgs(err, data)])
  }

  /** The promise a given `err` and `data` settle to. */
  function Verdict(err: Option<Reason>, data: Value): Settlement
  {
    if err.Some? then Rejected(err.value) else Resolved(data)
  }

  /** The argument checks, in the order the source makes them: a missing,
      empty or non-string name, then a callback that is not a function, then
      a missing client. `None` as the name means "not a string". */
  function Validation(name: Option<string>, callbackIsFunction: bool, hasClient: bool): Option<string>
  {
    if name.None? || name.value == "" then Some(NameError)
    else if !callbackIsFunction then Some(CallbackError)
    else if !hasClient then Some(NoClientError)
    else None
  }

  /** The promise executor: validate, then make the first claim. */
  function Begin(name: Option<string>, callbackIsFunction: bool, hasClient: bool): State
  {
    match Validation(name, callbackIsFunction, hasClient)
    case Some(c) => Settle(Initial(), Rejected(Code(c)))
    case None => Request(Initial())
  }

  /** The reply callback of `SET NX`. */
  function OnClaimReply(s: State, cfg: LegacySettings, reply: ClaimReply): State
    requires s.pendingClaims > 0
  {
    var s1 := s.(pendingClaims := s.pendingClaims - 1);
    match reply
    case ClaimFailed(_) => Next(s1, Abort(RequestError))
    case ClaimOk => Next(s1, Poll(RefreshFn, cfg.keepalive)).(callbacks := s.callbacks + 1)
    case ClaimHeld =>
      var s2 := s1.(requests := s.requests + 1);
      if Reached(s.requests, cfg.requests) then Next(s2, Abort(RequestTimeout))
      else if s1.timer == NoTimer then Next(s2, Poll(RequestFn, cfg.request))
      else s2
  }

  /** The reply callback of `SET PX`. */
  function OnRefreshReply(s: State, cfg: LegacySettings, failure: Option<string>): State
    requires s.pendingRefreshes > 0
  {
    var s1 := s.(pendingRefreshes := s.pendingRefreshes - 1);
    if failure.Some? then Next(s1, Abort(RefreshError))
    else
      var s2 := s1.(keepalives := s.keepalives + 1);
      if Reached(s.keepalives, cfg.keepalives) then Next(s2, Abort(RefreshTimeout)) else s2
  }

  /** The reply callback of the oldest outstanding DEL: a DEL error wins over
      `err`, `err` over `data`. */
  function OnDelReply(s: State, failure: Option<string>): State
    requires s.pendingDels != []
  {
    var p := s.pendingDels[0];
    Settle(s.(pendingDels := s.pendingDels[1..]),
           if failure.Some? then Rejected(Code(ReleaseError)) else Verdict(p.err, p.data))
  }

  datatype Event =
    | RequestTick
    | ClaimReplied(reply: ClaimReply)
    | RefreshTick
    | RefreshReplied(failure: Option<string>)
    | HolderRelease(err: Option<Reason>, data: Value)
    | DelReplied(failure: Option<string>)

  predicate Enabled(s: State, e: Event)
  {
    match e
    case RequestTick => s.timer == Interval(RequestFn)
    case ClaimReplied(_) => s.pendingClaims > 0
    case RefreshTick => s.timer == Interval(RefreshFn)
    case RefreshReplied(_) => s.pendingRefreshes > 0
    case HolderRelease(_, _) => s.callbacks > 0
    case DelReplied(_) => s.pendingDels != []
  }

  function Step(s: State, cfg: LegacySettings, e: Event): State
    requires Enabled(s, e)
  {
    match e
    case RequestTick => Request(s)
    case ClaimReplied(reply) => OnClaimReply(s, cfg, reply)
    case RefreshTick => Keepalive(s)
    case RefreshReplied(f) => OnRefreshReply(s, cfg, f)
    case HolderRelease(err, data) => Release(s, err, data)
    case DelReplied(f) => OnDelReply(s, f)
  }

  function Deliver(s: State, cfg: LegacySettings, e: Event): State
  {
    if Enabled(s, e) then Step(s, cfg, e) else s
  }

  /** Deliver events in order, the last one last, dropping those that cannot
      happen in the state they meet. */
  function Run(s: State, cfg: LegacySettings, es: seq<Event>): State
    decreases |es|
  {
    if es == [] then s
    else Deliver(Run(s, cfg, es[..|es| - 1]), cfg, es[|es| - 1])
  }

  /** What stays true of one attempt through every event. */
  ghost predicate Inv(s: State, cfg: LegacySettings)
  {
    // every held reply answered a claim SET, every success a refresh SET
    && s.requests + s.pendingClaims <= s.setNx
    && s.keepalives + s.pendingRefreshes <= s.setPx
    && |s.pendingDels| <= s.del
    // past the claim ceiling the promise is settled and polling never resumes
    && (cfg.requests.Bounded? && s.requests > cfg.requests.n ==>
          s.outcome.Some? && s.timer != Interval(RequestFn))
    // past the keepalive ceiling the promise is settled
    && (cfg.keepalives.Bounded? && s.keepalives > cfg.keepalives.n ==> s.outcome.Some?)
    // nothing of the holding phase happens before the callback is called
    && (s.callbacks == 0 ==> s.timer != Interval(RefreshFn) && s.setPx == 0 && s.del == 0)
  }

  lemma BeginInv(name: Option<string>, callbackIsFunction: bool, hasClient: bool, cfg: LegacySettings)
    ensures Inv(Begin(name, callbackIsFunction, hasClient), cfg)
  {
  }

  lemma ClaimReplyInv(s: State, cfg: LegacySettings, reply: ClaimReply)
    requires Inv(s, cfg) && s.pendingClaims > 0
    ensures Inv(OnClaimReply(s, cfg, reply), cfg)
  {
  }

  lemma RefreshReplyInv(s: State, cfg: LegacySettings, failure: Option<string>)
    requires Inv(s, cfg) && s.pendingRefreshes > 0
    ensures Inv(OnRefreshReply(s, cfg, failure), cfg)
  {
  }

  lemma StepInv(s: State, cfg: LegacySettings, e: Event)
    requires Inv(s, cfg) && Enabled(s, e)
    ensures Inv(Step(s, cfg, e), cfg)
  {
    match e
    case ClaimReplied(reply) => ClaimReplyInv(s, cfg, reply);
    case RefreshReplied(f) => RefreshReplyInv(s, cfg, f);
    case _ =>
  }

  lemma {:induction false} RunInv(s: State, cfg: LegacySettings, es: seq<Event>)
    requires Inv(s, cfg)
    ensures Inv(Run(s, cfg, es), cfg)
    decreases |es|
  {
    if es != [] {
      var before := Run(s, cfg, es[..|es| - 1]);
      RunInv(s, cfg, es[..|es| - 1]);
      if Enabled(before, es[|es| - 1]) { StepInv(before, cfg, es[|es| - 1]); }
    }
  }

  // ---------------------------------------------------------------------
  // Properties of one acquire call
  // ---------------------------------------------------------------------

  /** The argument checks run in the order name, callback, client; an empty
      name is refused like a non-string one. A failing check rejects with its
      code and sends nothing; when all pass, exactly one claim is sent. */
  lemma LegacyValidationOrder(name: Option<string>, callbackIsFunction: bool, hasClient: bool)
    ensures var s := Begin(name, callbackIsFunction, hasClient);
      && (name.None? || name == Some("") ==> s.outcome == Some(Rejected(Code(NameError))))
      && (name.Some? && name.value != "" && !callbackIsFunction ==>
            s.outcome == Some(Rejected(Code(CallbackError))))
      && (name.Some? && name.value != "" && callbackIsFunction && !hasClient ==>
            s.outcome == Some(Rejected(Code(NoClientError))))
      && (Validation(name, callbackIsFunction, hasClient).Some? ==> s.setNx == 0 && s.timer == NoTimer)
      && (Validation(name, callbackIsFunction, hasClient).None? ==>
            s.setNx == 1 && s.pendingClaims == 1 && s.outcome == None)
  {
  }

  /** After a failed argument check no event can happen. */
  lemma {:induction false} LegacyValidationFailureIsFinal(name: Option<string>, callbackIsFunction: bool,
                                                          hasClient: bool, cfg: LegacySettings, es: seq<Event>)
    requires Validation(name, callbackIsFunction, hasClient).Some?
    ensures Run(Begin(name, callbackIsFunction, hasClient), cfg, es) == Begin(name, callbackIsFunction, hasClient)
    decreases |es|
  {
    if es != [] {
      LegacyValidationFailureIsFinal(name, callbackIsFunction, hasClient, cfg, es[..|es| - 1]);
      assert !Enabled(Begin(name, callbackIsFunction, hasClient), es[|es| - 1]);
    }
  }

  /** A claim error clears the interval and rejects a pending promise with
      "REQUEST_ERROR", without counting a request; claims still in flight are
      not cancelled. A successful claim, in every state, puts the keepalive
      interval in place of whatever was live and calls the callback once,
      even after the promise has settled; nothing is settled by the
      callback's return. */
  lemma LegacyClaimErrorAndSuccess(s: State, cfg: LegacySettings, m: string)
    requires s.pendingClaims > 0
    ensures var t := OnClaimReply(s, cfg, ClaimFailed(m));
      && t.timer == NoTimer && t.pendingClaims == s.pendingClaims - 1
      && t.requests == s.requests && t.callbacks == s.callbacks
      && (s.outcome.None? ==> t.outcome == Some(Rejected(Code(RequestError))))
      && (s.outcome.Some? ==> t.outcome == s.outcome)
    ensures var t := OnClaimReply(s, cfg, ClaimOk);
      && t.callbacks == s.callbacks + 1 && t.requests == s.requests
      && (cfg.keepalive > 0 ==> t.timer == Interval(RefreshFn) && t.outcome == s.outcome)
      && (cfg.keepalive == 0 ==> t.timer == NoTimer)
      && (cfg.keepalive == 0 && s.outcome.None? ==> t.outcome == Some(Rejected(HandlerRejected(RefreshFn))))
  {
  }

  /** A held reply, in every state, counts one request, checking the counter
      before counting it: while the count is below the ceiling, polling
      starts if no interval is live, even after the promise has settled; once
      the count has reached it, the interval is cleared and a pending promise
      rejects "REQUEST_TIMEOUT". */
  lemma LegacyHeldReply(s: State, cfg: LegacySettings)
    requires s.pendingClaims > 0
    ensures var t := OnClaimReply(s, cfg, ClaimHeld);
      && t.requests == s.requests + 1 && t.setNx == s.setNx
      && (Reached(s.requests, cfg.requests) ==>
            && t.timer == NoTimer
            && (s.outcome.None? ==> t.outcome == Some(Rejected(Code(RequestTimeout))))
            && (s.outcome.Some? ==> t.outcome == s.outcome))
      && (!Reached(s.requests, cfg.requests) && s.timer == NoTimer && cfg.request > 0 ==>
            t.timer == Interval(RequestFn) && t.outcome == s.outcome)
      && (!Reached(s.requests, cfg.requests) && s.timer != NoTimer ==>
            t.timer == s.timer && t.outcome == s.outcome)
  {
  }

  /** A refresh error clears the interval and rejects a pending promise with
      "REFRESH_ERROR" without counting a keepalive; a success counts one,
      checking the counter first, and once the count has reached the ceiling
      it clears the interval and rejects "REFRESH_TIMEOUT". Neither path
      sends a DEL. */
  lemma LegacyRefreshReply(s: State, cfg: LegacySettings, m: string)
    requires s.pendingRefreshes > 0
    ensures var t := OnRefreshReply(s, cfg, Some(m));
      && t.timer == NoTimer && t.keepalives == s.keepalives && t.del == s.del
      && (s.outcome.None? ==> t.outcome == Some(Rejected(Code(RefreshError))))
      && (s.outcome.Some? ==> t.outcome == s.outcome)
    ensures var t := OnRefreshReply(s, cfg, None);
      && t.keepalives == s.keepalives + 1 && t.del == s.del
      && (Reached(s.keepalives, cfg.keepalives) ==>
            && t.timer == NoTimer
            && (s.outcome.None? ==> t.outcome == Some(Rejected(Code(RefreshTimeout))))
            && (s.outcome.Some? ==> t.outcome == s.outcome))
      && (!Reached(s.keepalives, cfg.keepalives) ==> t.timer == s.timer && t.outcome == s.outcome)
  {
  }

  /** Release is not guarded: every call clears the interval and queues one
      more DEL carrying its own `err` and `data`, so two calls send two DELs. */
  lemma LegacyReleaseUnguarded(s: State, err: Option<Reason>, data: Value, err2: Option<Reason>, data2: Value)
    ensures var t := Release(s, err, data);
      var u := Release(t, err2, data2);
      && t.timer == NoTimer && t.del == s.del + 1
      && t.pendingDels == s.pendingDels + [ReleaseArgs(err, data)]
      && u.del == s.del + 2
      && u.pendingDels == s.pendingDels + [ReleaseArgs(err, data), ReleaseArgs(err2, data2)]
      && u.outcome == s.outcome
  {
  }

  /** The promise a DEL reply settles: a DEL error rejects "RELEASE_ERROR"
      even when `err` is missing; otherwise a given `err` rejects, and
      otherwise `data` resolves. Only the first reply to settle counts. */
  lemma LegacyDelReplyPriority(s: State, failure: Option<string>)
    requires s.pendingDels != []
    ensures var p := s.pendingDels[0];
      var t := OnDelReply(s, failure);
      && t.pendingDels == s.pendingDels[1..]
      && (s.outcome.None? ==> t.outcome == Some(
            if failure.Some? then Rejected(Code(ReleaseError))
            else if p.err.Some? then Rejected(p.err.value)
            else Resolved(p.data)))
      && (s.outcome.Some? ==> t.outcome == s.outcome)
  {
  }

  /** `next` leaves at most one interval, touches nothing but the interval and
      the promise, and rejects with a handler given without a time. */
  lemma LegacyNextLeavesOneInterval(s: State, arg: NextArg)
    ensures var t := Next(s, arg);
      && t.timer == (if arg.Poll? && arg.time > 0 then Interval(arg.handler) else NoTimer)
      && t.(timer := s.timer, outcome := s.outcome) == s
      && (arg.NoHandler? || (arg.Poll? && arg.time > 0) || s.outcome.Some? ==> t.outcome == s.outcome)
      && (s.outcome.None? && arg.Poll? && arg.time == 0 ==>
            t.outcome == Some(Rejected(HandlerRejected(arg.handler))))
      && (s.outcome.None? && arg.Abort? ==> t.outcome == Some(Rejected(Code(arg.code))))
  {
  }

  /** Over every run of one attempt: once more held replies than the claim
      ceiling have arrived the promise is settled and polling is over; once
      more successful refreshes than the keepalive ceiling, the promise is
      settled; every DEL follows a call of the callback; and no more DEL
      replies are awaited than DELs were sent. */
  lemma LegacyCeilings(name: Option<string>, callbackIsFunction: bool, hasClient: bool,
                       cfg: LegacySettings, es: seq<Event>)
    ensures var t := Run(Begin(name, callbackIsFunction, hasClient), cfg, es);
      && (cfg.requests.Bounded? && t.requests > cfg.requests.n ==>
            t.outcome.Some? && t.timer != Interval(RequestFn))
      && (cfg.keepalives.Bounded? && t.keepalives > cfg.keepalives.n ==> t.outcome.Some?)
      && t.requests <= t.setNx && t.keepalives <= t.setPx
      && |t.pendingDels| <= t.del
      && (t.callbacks == 0 ==> t.setPx == 0 && t.del == 0 && t.timer != Interval(RefreshFn))
  {
    BeginInv(name, callbackIsFunction, hasClient, cfg);
    RunInv(Begin(name, callbackIsFunction, hasClient), cfg, es);
  }

  /** The promise settles at most once: a settled outcome survives every event. */
  lemma {:induction false} LegacyRunKeepsOutcome(s: State, cfg: LegacySettings, es: seq<Event>)
    requires s.outcome.Some?
    ensures Run(s, cfg, es).outcome == s.outcome
    decreases |es|
  {
    if es != [] {
      LegacyRunKeepsOutcome(s, cfg, es[..|es| - 1]);
    }
  }
}
