/** One `acquire` call of index.js as an object: the closure's variables are
    fields, its inner functions `request`, `keepalive`, `release` and `next`
    are methods that update them in place, and each event the environment
    delivers is a public method. Every method is proved to perform the
    corresponding transition of `LegacyMachine` (`OnRequestTick` performs
    `Request`, `Start` performs `Begin`, and so on), and the public ones keep
    `Valid()`, the machine's invariant. */
module Legacy {
  import opened Common
  import opened LegacyMachine

  class LegacyAttempt {
    const cfg: LegacySettings

    var requests: nat
    var keepalives: nat
    var timer: Timer
    var outcome: Option<Settlement>
    var setNx: nat
    var setPx: nat
    var del: nat
    var pendingClaims: nat
    var pendingRefreshes: nat
    var pendingDels: seq<ReleaseArgs>
    var callbacks: nat

    function Snapshot(): State
      reads this
    {
      State(requests, keepalives, timer, outcome, setNx, setPx, del,
            pendingClaims, pendingRefreshes, pendingDels, callbacks)
    }

    ghost predicate Valid()
      reads this
    {
      Inv(Snapshot(), cfg)
    }

    /** The closure's variables as `acquire` declares them. */
    constructor (cfg: LegacySettings)
      ensures this.cfg == cfg && Snapshot() == Initial() && Valid()
    {
      this.cfg := cfg;
      requests, keepalives, timer, outcome := 0, 0, NoTimer, None;
      setNx, setPx, del := 0, 0, 0;
      pendingClaims, pendingRefreshes, pendingDels := 0, 0, [];
      callbacks := 0;
    }

    /** `resolve` / `reject` of the outer promise. */
    method Settle(r: Settlement)
      modifies this
      ensures Snapshot() == LegacyMachine.Settle(old(Snapshot()), r)
    {
      if outcome.None? {
        outcome := Some(r);
      }
    }

    /** `next(handler, time)`. */
    method Next(arg: NextArg)
      modifies this
      ensures Snapshot() == LegacyMachine.Next(old(Snapshot()), arg)
    {
      if timer != NoTimer {
        timer := NoTimer;
      }
      match arg {
        case NoHandler =>
        case Poll(h, time) =>
          if time > 0 {
            timer := Interval(h);
          } else {
            Settle(Rejected(HandlerRejected(h)));
          }
        case Abort(c) =>
          Settle(Rejected(Code(c)));
      }
    }

    /** `request()`. */
    method Request()
      modifies this
      ensures Snapshot() == LegacyMachine.Request(old(Snapshot()))
    {
      setNx, pendingClaims := setNx + 1, pendingClaims + 1;
    }

    /** The promise executor: the argument checks, then the first claim. */
    method Start(name: Option<string>, callbackIsFunction: bool, hasClient: bool)
      requires Snapshot() == Initial()
      modifies this
      ensures Valid() && Snapshot() == Begin(name, callbackIsFunction, hasClient)
    {
      if name.None? || name.value == "" {
        Settle(Rejected(Code(NameError)));
      } else if !callbackIsFunction {
        Settle(Rejected(Code(CallbackError)));
      } else if !hasClient {
        Settle(Rejected(Code(NoClientError)));
      } else {
        Request();
      }
      BeginInv(name, callbackIsFunction, hasClient, cfg);
    }

    /** The claim-poll interval fires. */
    method OnRequestTick()
      requires Valid() && timer == Interval(RequestFn)
      modifies this
      ensures Valid() && Snapshot() == LegacyMachine.Request(old(Snapshot()))
    {
      Request();
      StepInv(old(Snapshot()), cfg, RequestTick);
    }

    /** Redis answers a claim `SET NX`; on `'OK'` the callback is called. */
    method OnClaimReply(reply: ClaimReply)
      requires Valid() && pendingClaims > 0
      modifies this
      ensures Valid() && Snapshot() == LegacyMachine.OnClaimReply(old(Snapshot()), cfg, reply)
    {
      ghost var before := Snapshot();
      pendingClaims := pendingClaims - 1;
      match reply {
        case ClaimFailed(_) =>
          Next(Abort(RequestError));
        case ClaimOk =>
          Next(Poll(RefreshFn, cfg.keepalive));
          callbacks := callbacks + 1;
        case ClaimHeld =>
          var count := requests;
          requests := requests + 1;
          if Reached(count, cfg.requests) {
            Next(Abort(RequestTimeout));
          } else if timer == NoTimer {
            Next(Poll(RequestFn, cfg.request));
          }
      }
      assert Snapshot() == LegacyMachine.OnClaimReply(before, cfg, reply);
      ClaimReplyInv(before, cfg, reply);
    }

    /** The keepalive interval fires: `keepalive()`. */
    method OnRefreshTick()
      requires Valid() && timer == Interval(RefreshFn)
      modifies this
      ensures Valid() && Snapshot() == Keepalive(old(Snapshot()))
    {
      setPx, pendingRefreshes := setPx + 1, pendingRefreshes + 1;
      StepInv(old(Snapshot()), cfg, RefreshTick);
    }

    /** Redis answers a refresh `SET PX`. */
    method OnRefreshReply(failure: Option<string>)
      requires Valid() && pendingRefreshes > 0
      modifies this
      ensures Valid() && Snapshot() == LegacyMachine.OnRefreshReply(old(Snapshot()), cfg, failure)
    {
      ghost var before := Snapshot();
      pendingRefreshes := pendingRefreshes - 1;
      if failure.Some? {
        Next(Abort(RefreshError));
      } else {
        var count := keepalives;
        keepalives := keepalives + 1;
        if Reached(count, cfg.keepalives) {
          Next(Abort(RefreshTimeout));
        }
      }
      assert Snapshot() == LegacyMachine.OnRefreshReply(before, cfg, failure);
      RefreshReplyInv(before, cfg, failure);
    }

    /** The holder calls the `release` it was given: `release(err, data)`. */
    method Release(err: Option<Reason>, data: Value)
      requires Valid() && callbacks > 0
      modifies this
      ensures Valid() && Snapshot() == LegacyMachine.Release(old(Snapshot()), err, data)
    {
      Next(NoHandler);
      del, pendingDels := del + 1, pendingDels + [ReleaseArgs(err, data)];
      StepInv(old(Snapshot()), cfg, HolderRelease(err, data));
    }

    /** Redis answers the oldest outstanding `DEL`. */
    method OnDelReply(failure: Option<string>)
      requires Valid() && pendingDels != []
      modifies this
      ensures Valid() && Snapshot() == LegacyMachine.OnDelReply(old(Snapshot()), failure)
    {
      var args := pendingDels[0];
      pendingDels := pendingDels[1..];
      if failure.Some? {
        Settle(Rejected(Code(ReleaseError)));
      } else if args.err.Some? {
        Settle(Rejected(args.err.value));
      } else {
        Settle(Resolved(args.data));
      }
      StepInv(old(Snapshot()), cfg, DelReplied(failure));
    }
  }
}
