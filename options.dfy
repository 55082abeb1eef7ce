/** Configuration of lib/spinlock.js: the defaults the factory fills in, and the
    merge `acquire` performs when its first argument is an options object.
    An `Options` value lists the keys an object literal has (`Some`) or lacks
    (`None`); `Extend(target, source)` is lodash's `extend`, in which a key of
    `source` overwrites the same key of `target`. */
module Options {
  import opened Common

  datatype Options = Options(
    name: Option<string>,
    timeout: Option<nat>,
    attempt: Option<nat>,
    attempts: Option<Limit>,
    keepalive: Option<nat>,
    keepalives: Option<Limit>,
    autorelease: Option<bool>)

  /** The values one attempt runs with, once every key has been filled in. */
  datatype Settings = Settings(
    timeout: nat,     // PX milliseconds of every SET
    attempt: nat,     // milliseconds between claim polls
    attempts: Limit,  // ceiling on claim SETs
    keepalive: nat,   // milliseconds between refreshes
    keepalives: Limit, // ceiling on refresh SETs
    autorelease: bool) // DEL the key when the attempt is released

  /** The empty object literal `{}`. */
  const NoOptions: Options := Options(None, None, None, None, None, None, None)

  /** The factory's defaults. */
  const Defaults: Options :=
    Options(None, Some(500), Some(100), Some(Unbounded), Some(100), Some(Unbounded), Some(true))

  /** `_.extend(target, source)` over the keys above. */
  function Extend(target: Options, source: Options): Options
  {
    Options(
      Pick(target.name, source.name),
      Pick(target.timeout, source.timeout),
      Pick(target.attempt, source.attempt),
      Pick(target.attempts, source.attempts),
      Pick(target.keepalive, source.keepalive),
      Pick(target.keepalives, source.keepalives),
      Pick(target.autorelease, source.autorelease))
  }

  /** Every tuning key is present. */
  predicate Complete(o: Options)
  {
    o.timeout.Some? && o.attempt.Some? && o.attempts.Some? &&
    o.keepalive.Some? && o.keepalives.Some? && o.autorelease.Some?
  }

  function Resolve(o: Options): Settings
    requires Complete(o)
  {
    Settings(o.timeout.value, o.attempt.value, o.attempts.value,
             o.keepalive.value, o.keepalives.value, o.autorelease.value)
  }

  /** The factory's options: every key the caller gave, and the default for
      every key the caller left out. */
  function FactoryOptions(user: Options): (o: Options)
    ensures Complete(o)
    ensures o.name == user.name
    ensures Resolve(o) == Settings(
      if user.timeout.Some? then user.timeout.value else 500,
      if user.attempt.Some? then user.attempt.value else 100,
      if user.attempts.Some? then user.attempts.value else Unbounded,
      if user.keepalive.Some? then user.keepalive.value else 100,
      if user.keepalives.Some? then user.keepalives.value else Unbounded,
      if user.autorelease.Some? then user.autorelease.value else true)
  {
    Extend(Defaults, user)
  }

  /** `_.extend({}, name, options)`: the per-call object is copied first and
      the factory's options are copied over it, so the factory wins on every key
      it has. Since the factory has every tuning key, the per-call object can
      only contribute a `name` the factory lacks. */
  function CallOptions(factory: Options, perCall: Options): (o: Options)
    ensures Complete(factory) ==> Complete(o) && Resolve(o) == Resolve(factory)
    ensures o.name == if factory.name.Some? then factory.name else perCall.name
  {
    Extend(Extend(NoOptions, perCall), factory)
  }

  /** The first argument of `acquire`: a string, a value whose `typeof` is
      `'object'` (options with a `name` key; `null` and an array have no
      options of their own and are `NameObject(NoOptions)`), or anything else
      (a number, a function, `undefined`). */
  datatype NameArg = NameString(s: string) | NameObject(o: Options) | NameOther

  /** The settings and the name one `acquire` call works with. `None` as the
      name means "not a string", which the validation rejects. */
  function CallSetup(factory: Options, arg: NameArg): (r: (Settings, Option<string>))
    requires Complete(factory)
    ensures r.0 == Resolve(factory)
    ensures arg.NameString? ==> r.1 == Some(arg.s)
    ensures arg.NameOther? ==> r.1 == None
    ensures arg.NameObject? && factory.name.Some? ==> r.1 == factory.name
    ensures arg.NameObject? && factory.name.None? ==> r.1 == arg.o.name
  {
    match arg
    case NameString(s) => (Resolve(factory), Some(s))
    case NameOther => (Resolve(factory), None)
    case NameObject(o) =>
      var merged := CallOptions(factory, o);
      (Resolve(merged), merged.name)
  }
}
