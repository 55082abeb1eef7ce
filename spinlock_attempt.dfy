/** One `acquire` call of lib/spinlock.js as an object: the closure's variables
    are fields, its inner functions `request`, `refresh`, `release` and `next`
    are methods that update them in place, and each event the environment
    delivers (a Redis reply, an interval tick, the callback's result, the
    holder's call of `release`) is a public method. Every method is proved to
    perform the corresponding transition of `SpinlockMachine` (`OnRequestTick`
    performs `Request`, `Start` performs `Begin`, and so on), and the public
    ones keep `Valid()`, the machine's invariant. */
module Spinlock {
  import opened Common
  import opened Options
  import opened SpinlockMachine

  class Attempt {
    const cfg: Settings

    var requests: nat
    var refreshes: nat
    var timer: Timer
    var released: nat
    var outcome: Option<Settlement>
    var setNx: nat
    var setPx: nat
    var del: nat
    var pendingClaims: nat
    var pendingRefreshes: nat
    var pendingDel: Option<ReleaseArgs>
    var callbacks: nat
    var awaiting: nat

    function Snapshot(): State
      reads this
    {
      State(requests, refreshes, timer, released, outcome, setNx, setPx, del,
            pendingClaims, pendingRefreshes, pendingDel, callbacks, awaiting)
    }

    ghost predicate Valid()
      reads this
    {
      Inv(Snapshot(), cfg)
    }

    /** The closure's variables as `acquire` declares them. */
    constructor (cfg: Settings)
      ensures this.cfg == cfg && Snapshot() == Initial() && Valid()
    {
      this.cfg := cfg;
      requests, refreshes, timer, released, outcome := 0, 0, NoTimer, 0, None;
      setNx, setPx, del := 0, 0, 0;
      pendingClaims, pendingRefreshes, pendingDel := 0, 0, None;
      callbacks, awaiting := 0, 0;
    }

    /** `resolve` / `reject` of the outer promise. */
    method Settle(r: Settlement)
      modifies this
      ensures Snapshot() == SpinlockMachine.Settle(old(Snapshot()), r)
    {
      if outcome.None? {
        outcome := Some(r);
      }
    }

    /** `next(handler, time)`. */
    method Next(arg: NextArg)
      modifies this
      ensures Snapshot() == SpinlockMachine.Next(old(Snapshot()), arg)
    {
      if timer != NoTimer {
        timer := NoTimer;
      }
      match arg {
        case NoHandler =>
        case Poll(h, time) =>
          if time > 0 {
            timer := Interval(h);
          } else {
            Settle(Rejected(HandlerRejected(h)));
          }
        case Abort(r) =>
          Settle(Rejected(r));
      }
    }

    /** `request()`. */
    method Request()
      modifies this
      ensures Snapshot() == SpinlockMachine.Request(old(Snapshot()), cfg)
    {
      var count := requests;
      requests := requests + 1;
      if Reached(count, cfg.attempts) {
        Next(Abort(AcquireError(MaxAttemptsMessage)));
        return;
      }
      setNx, pendingClaims := setNx + 1, pendingClaims + 1;
    }

    /** `refresh()`. */
    method Refresh()
      modifies this
      ensures Snapshot() == SpinlockMachine.Refresh(old(Snapshot()), cfg)
    {
      var count := refreshes;
      refreshes := refreshes + 1;
      if Reached(count, cfg.keepalives) {
        Next(Abort(LockError(KeepaliveMessage)));
        return;
      }
      setPx, pendingRefreshes := setPx + 1, pendingRefreshes + 1;
    }

    /** The body of `release(err, data)`. */
    method DoRelease(err: Option<Reason>, data: Value)
      modifies this
      ensures Snapshot() == SpinlockMachine.DoRelease(old(Snapshot()), cfg, err, data)
    {
      var count := released;
      released := released + 1;
      if count == 0 {
        Next(NoHandler);
        if cfg.autorelease {
          del, pendingDel := del + 1, Some(ReleaseArgs(err, data));
        } else if err.Some? {
          Settle(Rejected(err.value));
        } else {
          Settle(Resolved(data));
        }
      }
    }

    /** The promise executor: the argument checks, then the first claim. */
    method Start(hasClient: bool, name: Option<string>, callbackIsFunction: bool)
      requires Snapshot() == Initial()
      modifies this
      ensures Valid() && Snapshot() == Begin(cfg, hasClient, name, callbackIsFunction)
    {
      if !hasClient {
        Settle(Rejected(RedisError(NoClientMessage)));
      } else if name.None? {
        Settle(Rejected(TypeError(NameMessage)));
      } else if !callbackIsFunction {
        Settle(Rejected(TypeError(CallbackMessage)));
      } else {
        Request();
      }
      BeginInv(cfg, hasClient, name, callbackIsFunction);
    }

    /** The claim-poll interval fires. */
    method OnRequestTick()
      requires Valid() && timer == Interval(RequestFn)
      modifies this
      ensures Valid() && Snapshot() == SpinlockMachine.Request(old(Snapshot()), cfg)
    {
      Request();
      RequestInv(old(Snapshot()), cfg);
    }

    /** The `'OK'` branch of the claim reply. */
    method Acquired(call: CallbackCall)
      modifies this
      ensures Snapshot() == SpinlockMachine.Acquired(old(Snapshot()), cfg, call)
    {
      Next(Poll(RefreshFn, cfg.keepalive));
      callbacks := callbacks + 1;
      match call {
        case Returned => awaiting := awaiting + 1;
        case Threw(e) => DoRelease(e, Undefined);
      }
    }

    /** Redis answers a claim `SET NX`; on `'OK'` the callback is called and
        `call` is what it did. */
    method OnClaimReply(reply: ClaimReply, call: CallbackCall)
      requires Valid() && pendingClaims > 0
      modifies this
      ensures Valid() && Snapshot() == SpinlockMachine.OnClaimReply(old(Snapshot()), cfg, reply, call)
    {
      ghost var before := Snapshot();
      pendingClaims := pendingClaims - 1;
      match reply {
        case ClaimFailed(m) =>
          Next(Abort(RedisError(m)));
        case ClaimOk =>
          Acquired(call);
        case ClaimHeld =>
          if timer == NoTimer {
            Next(Poll(RequestFn, cfg.attempt));
          }
      }
      assert Snapshot() == SpinlockMachine.OnClaimReply(before, cfg, reply, call);
      ClaimReplyInv(before, cfg, reply, call);
    }

    /** The keepalive interval fires. */
    method OnRefreshTick()
      requires Valid() && timer == Interval(RefreshFn)
      modifies this
      ensures Valid() && Snapshot() == SpinlockMachine.Refresh(old(Snapshot()), cfg)
    {
      Refresh();
      RefreshInv(old(Snapshot()), cfg);
    }

    /** Redis answers a refresh `SET PX`. */
    method OnRefreshReply(failure: Option<string>)
      requires Valid() && pendingRefreshes > 0
      modifies this
      ensures Valid() && Snapshot() == SpinlockMachine.OnRefreshReply(old(Snapshot()), failure)
    {
      pendingRefreshes := pendingRefreshes - 1;
      if failure.Some? {
        Next(Abort(RedisError(failure.value)));
      }
      StepInv(old(Snapshot()), cfg, RefreshReplied(failure));
    }

    /** The holder calls the `release` it was given. */
    method Release(err: Option<Reason>, data: Value)
      requires Valid() && callbacks > 0
      modifies this
      ensures Valid() && Snapshot() == SpinlockMachine.DoRelease(old(Snapshot()), cfg, err, data)
    {
      DoRelease(err, data);
      DoReleaseInv(old(Snapshot()), cfg, err, data);
    }

    /** The callback's awaited result settles. */
    method OnCallbackSettled(r: CallbackResult)
      requires Valid() && awaiting > 0
      modifies this
      ensures Valid() && Snapshot() == SpinlockMachine.OnCallbackSettled(old(Snapshot()), cfg, r)
    {
      awaiting := awaiting - 1;
      match r {
        case Fulfilled(d) => DoRelease(None, d);
        case Failed(e) => DoRelease(e, Undefined);
      }
      CallbackSettledInv(old(Snapshot()), cfg, r);
    }

    /** Redis answers the `DEL`. */
    method OnDelReply(failure: Option<string>)
      requires Valid() && pendingDel.Some?
      modifies this
      ensures Valid() && Snapshot() == SpinlockMachine.OnDelReply(old(Snapshot()), failure)
    {
      var args := pendingDel.value;
      pendingDel := None;
      if failure.Some? {
        Settle(Rejected(RedisError(failure.value)));
      } else if args.err.Some? {
        Settle(Rejected(args.err.value));
      } else {
        Settle(Resolved(args.data));
      }
      StepInv(old(Snapshot()), cfg, DelReplied(failure));
    }
  }
}
