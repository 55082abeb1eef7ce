/** Vocabulary shared by both versions of the lock: optional values, attempt and
    keepalive ceilings (a JavaScript number that may be `Infinity`), the single
    interval handle and the three kinds of reply to a conditional SET. */
module Common {

  datatype Option<+T> = None | Some(value: T)

  /** A ceiling on a counter; `Unbounded` stands for JavaScript's `Infinity`. */
  datatype Limit = Bounded(n: nat) | Unbounded

  /** `count >= limit` in JavaScript: never true against `Infinity`. */
  predicate Reached(count: nat, limit: Limit)
  {
    limit.Bounded? && count >= limit.n
  }

  /** The smaller of `count` and `limit`. */
  function Capped(count: nat, limit: Limit): nat
  {
    match limit
    case Unbounded => count
    case Bounded(n) => if count <= n then count else n
  }

  /** A settled value handed to `release` and to the outer promise; `Undefined`
      is what the rejection and throw paths pass as `data`. */
  datatype Value = Undefined | Data(payload: string)

  /** The two polling functions that `next` can put on an interval. */
  datatype Handler = RequestFn | RefreshFn

  /** The one interval handle of an attempt: none, or the handler it repeats. */
  datatype Timer = NoTimer | Interval(handler: Handler)

  /** Reply to `SET name value PX timeout NX`: an error, `'OK'`, or the null
      reply that means the key is already held. */
  datatype ClaimReply = ClaimFailed(message: string) | ClaimOk | ClaimHeld

  /** `extend`-style choice for one key: the source's value when it has the
      key, otherwise the target's. */
  function Pick<T>(target: Option<T>, source: Option<T>): Option<T>
  {
    if source.Some? then source else target
  }
}
