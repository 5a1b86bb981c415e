/**
 * The registration entry points of an instance as chains of wrappers. Each
 * wrapper the plugin installs is a closure over its table and over the entry
 * point it replaced (`original`); a chain ends at the host's own entry point.
 */
module EntryPoints {
  import opened Wrappers
  import opened JsValues
  import opened OverrideTables
  import opened Logging

  /**
   * An `addHook` or `decorate*` slot: the host's original, or a wrapper that
   * substitutes `table[key] ?? value` and calls the slot it replaced.
   */
  datatype ValueSlot = Original | Wrapped(table: map<string, Val>, original: ValueSlot)

  /**
   * A `register` slot: the host's original, or a wrapper over the plugins
   * table that logs to the logger of the instance it was installed on.
   */
  datatype RegisterSlot =
    | OriginalRegister
    | WrappedRegister(plugins: map<string, Val>, log: Logger, original: RegisterSlot)

  /** Every value configured under `key` in some layer of the chain. */
  function Configured(slot: ValueSlot, key: string): (vs: set<Val>) {
    match slot
    case Original => {}
    case Wrapped(table, original) =>
      (if Configures(table, key) then {table[key]} else {}) + Configured(original, key)
  }

  /**
   * The value the host's original entry point receives when `value` is
   * passed under `key` through the chain: the caller's own value or one that
   * some layer configures.
   */
  function Forward(slot: ValueSlot, key: string, value: Val): (r: Val)
    ensures r == value || r in Configured(slot, key)
  {
    match slot
    case Original => value
    case Wrapped(table, original) => Forward(original, key, SelectValue(table, key, value))
  }

  /**
   * The replacement for `key`, if any layer configures one: that of the
   * innermost layer, i.e. of the earliest installation.
   */
  function Replacement(slot: ValueSlot, key: string): (r: Option<Val>) {
    match slot
    case Original => None
    case Wrapped(table, original) =>
      var inner := Replacement(original, key);
      if inner.Some? then inner
      else if Configures(table, key) then Some(table[key])
      else None
  }

  /**
   * Forwarding substitutes per call: the forwarded value is the replacement
   * when there is one, whatever the caller passed, and the caller's value
   * otherwise.
   */
  lemma {:induction false} ForwardIsReplacement(slot: ValueSlot, key: string, value: Val)
    ensures Replacement(slot, key).Some? ==> Forward(slot, key, value) == Replacement(slot, key).value
    ensures Replacement(slot, key).None? ==> Forward(slot, key, value) == value
  {
    match slot
    case Original =>
    case Wrapped(table, original) =>
      ForwardIsReplacement(original, key, SelectValue(table, key, value));
  }

  /** A chain that never configures `key` passes every value for it through. */
  lemma {:induction false} UnconfiguredKeyPassesThrough(slot: ValueSlot, key: string, value: Val)
    requires Configured(slot, key) == {}
    ensures Forward(slot, key, value) == value
  {
    match slot
    case Original =>
    case Wrapped(table, original) =>
      assert !Configures(table, key);
      UnconfiguredKeyPassesThrough(original, key, value);
  }

  /** `n` successive wraps of `slot` with the same table. */
  function WrapTimes(table: map<string, Val>, slot: ValueSlot, n: nat): (r: ValueSlot) {
    if n == 0 then slot else Wrapped(table, WrapTimes(table, slot, n - 1))
  }

  /**
   * Wrapping with the same table again changes nothing: any number of wraps
   * forwards what a single one does, because `x ?? (x ?? v)` is `x ?? v`.
   */
  lemma {:induction false} RewrapIsIdempotent(table: map<string, Val>, slot: ValueSlot, n: nat, key: string, value: Val)
    requires n >= 1
    ensures Forward(WrapTimes(table, slot, n), key, value) == Forward(Wrapped(table, slot), key, value)
  {
    if n > 1 {
      RewrapIsIdempotent(table, slot, n - 1, key, SelectValue(table, key, value));
    }
  }

  /**
   * What the host's original `register` receives when `v` is registered
   * through the chain; `None` when a wrapper throws a TypeError reading the
   * display name of null or undefined.
   */
  function RegisterForward(slot: RegisterSlot, v: Val): (r: Option<Val>)
    ensures slot.WrappedRegister? && IsNullish(v) ==> r.None?
    ensures !IsNullish(v) ==> r.Some? && !IsNullish(r.value)
  {
    match slot
    case OriginalRegister => Some(v)
    case WrappedRegister(plugins, _, original) =>
      var fn := Unwrap(v);
      if IsNullish(fn) then None else RegisterForward(original, SelectPlugin(plugins, fn))
  }

  /** The loggers the wrappers of a register chain write to. */
  function Loggers(slot: RegisterSlot): (ls: set<Logger>) {
    match slot
    case OriginalRegister => {}
    case WrappedRegister(_, log, original) => {log} + Loggers(original)
  }

  /** How many layers of the chain were installed on an instance logging to `log`. */
  function LayersLoggingTo(slot: RegisterSlot, log: Logger): (n: nat) {
    match slot
    case OriginalRegister => 0
    case WrappedRegister(_, l, original) => (if l == log then 1 else 0) + LayersLoggingTo(original, log)
  }

  /** How many debug notices `log` receives when `v` is registered through the chain. */
  function Notices(slot: RegisterSlot, v: Val, log: Logger): (n: nat)
    ensures n <= LayersLoggingTo(slot, log)
  {
    match slot
    case OriginalRegister => 0
    case WrappedRegister(plugins, l, original) =>
      (if IsPromiseLike(v) && l == log then 1 else 0) +
      (var fn := Unwrap(v); if IsNullish(fn) then 0 else Notices(original, SelectPlugin(plugins, fn), log))
  }

  /**
   * One layer logs one notice per call, to the logger of the instance it was
   * installed on, when the value is promise-like (whatever its tag or default
   * export), and none otherwise.
   */
  lemma NoticeIsPerPromiseLikeCall(plugins: map<string, Val>, log: Logger, v: Val, l: Logger)
    ensures Notices(WrappedRegister(plugins, log, OriginalRegister), v, l) ==
              if IsPromiseLike(v) && l == log then 1 else 0
  {
  }

  /** Only the chain's own loggers receive notices. */
  lemma {:induction false} NoticesOnlyToChainLoggers(slot: RegisterSlot, v: Val, log: Logger)
    requires log !in Loggers(slot)
    ensures Notices(slot, v, log) == 0
  {
    match slot
    case OriginalRegister =>
    case WrappedRegister(plugins, l, original) =>
      var fn := Unwrap(v);
      if !IsNullish(fn) {
        NoticesOnlyToChainLoggers(original, SelectPlugin(plugins, fn), log);
      }
  }

  /**
   * A value without identity is never substituted: the host receives it
   * unchanged, after module-namespace unwrapping when some wrapper is
   * installed.
   */
  lemma {:induction false} NoIdentityIsNeverSubstituted(slot: RegisterSlot, v: Val)
    requires !IsNullish(v) && Resolve(v) == NoIdentity
    ensures RegisterForward(slot, v) == Some(if slot.OriginalRegister? then v else Unwrap(v))
  {
    match slot
    case OriginalRegister =>
    case WrappedRegister(plugins, _, original) =>
      var fn := Unwrap(v);
      assert SelectPlugin(plugins, fn) == fn;
      assert Unwrap(fn) == fn;
      NoIdentityIsNeverSubstituted(original, fn);
  }

  /**
   * A thenable without display name or default export reaches the host
   * unchanged, and every layer of the chain logs one notice for it.
   */
  lemma {:induction false} ThenablePassesThrough(slot: RegisterSlot, v: Val, log: Logger)
    requires IsPromiseLike(v) && v.tag.None? && !HoldsFunction(v.defaultMember)
    ensures RegisterForward(slot, v) == Some(v)
    ensures Notices(slot, v, log) == LayersLoggingTo(slot, log)
  {
    match slot
    case OriginalRegister =>
    case WrappedRegister(plugins, _, original) =>
      assert Unwrap(v) == v;
      assert SelectPlugin(plugins, v) == v;
      ThenablePassesThrough(original, v, log);
  }

  /** The five entry points of an instance. */
  datatype Slots = Slots(
    register: RegisterSlot,
    addHook: ValueSlot,
    decorate: ValueSlot,
    decorateRequest: ValueSlot,
    decorateReply: ValueSlot)
  {
    /** The `decorate*` slot for `kind`. */
    function Decorator(kind: Kind): (s: ValueSlot) {
      match kind
      case Decorate => decorate
      case DecorateRequest => decorateRequest
      case DecorateReply => decorateReply
    }

    /** These slots with the one for `kind` replaced by `s`. */
    function WithDecorator(kind: Kind, s: ValueSlot): (r: Slots)
      ensures r.Decorator(kind) == s
      ensures forall k :: k != kind ==> r.Decorator(k) == Decorator(k)
      ensures r.register == register && r.addHook == addHook
    {
      match kind
      case Decorate => this.(decorate := s)
      case DecorateRequest => this.(decorateRequest := s)
      case DecorateReply => this.(decorateReply := s)
    }
  }

  /** The host's own entry points, before any installation. */
  const HostSlots := Slots(OriginalRegister, Original, Original, Original, Original)

  /**
   * The slots after `overrideDecorate(app, kind)`: wrapped only when the
   * decorators table has a section for `kind`.
   */
  function WrapDecorator(decorators: map<Kind, map<string, Val>>, kind: Kind, e: Slots): (r: Slots)
    ensures kind !in decorators ==> r == e
    ensures kind in decorators ==> r.Decorator(kind) == Wrapped(decorators[kind], e.Decorator(kind))
    ensures forall k :: k != kind ==> r.Decorator(k) == e.Decorator(k)
    ensures r.register == e.register && r.addHook == e.addHook
  {
    if kind in decorators then e.WithDecorator(kind, Wrapped(decorators[kind], e.Decorator(kind))) else e
  }

  /** The slots after `overrideRegister(app)` on an instance logging to `log`. */
  function WrapRegister(plugins: map<string, Val>, log: Logger, e: Slots): (r: Slots)
    ensures r.register.WrappedRegister? && r.register.original == e.register
    ensures r.register.plugins == plugins && r.register.log == log
    ensures Loggers(r.register) == {log} + Loggers(e.register)
    ensures r.addHook == e.addHook
    ensures forall k :: r.Decorator(k) == e.Decorator(k)
  {
    e.(register := WrappedRegister(plugins, log, e.register))
  }

  /** The slots after `overrideAddHook(app)`. */
  function WrapAddHook(hooks: map<string, Val>, e: Slots): (r: Slots)
    ensures r.addHook == Wrapped(hooks, e.addHook)
    ensures forall name, h :: Forward(r.addHook, name, h) == Forward(e.addHook, name, SelectValue(hooks, name, h))
    ensures r.register == e.register
    ensures forall k :: r.Decorator(k) == e.Decorator(k)
  {
    e.(addHook := Wrapped(hooks, e.addHook))
  }

  /**
   * The slots after the install sequence: `decorate`, `decorateReply` twice,
   * `register`, `addHook`.
   */
  function Installed(t: Tables, log: Logger, e: Slots): (r: Slots)
    ensures r.register == WrappedRegister(t.plugins, log, e.register)
    ensures r.addHook == Wrapped(t.hooks, e.addHook)
    ensures r.decorateRequest == e.decorateRequest
  {
    var e1 := WrapDecorator(t.decorators, Decorate, e);
    var e2 := WrapDecorator(t.decorators, DecorateReply, e1);
    var e3 := WrapDecorator(t.decorators, DecorateReply, e2);
    WrapAddHook(t.hooks, WrapRegister(t.plugins, log, e3))
  }

  /** The installed slots written out layer by layer. */
  lemma InstalledLayers(t: Tables, log: Logger, e: Slots)
    ensures var r := Installed(t, log, e);
      && r.register == WrappedRegister(t.plugins, log, e.register)
      && r.addHook == Wrapped(t.hooks, e.addHook)
      && r.decorate == (if Decorate in t.decorators then Wrapped(t.decorators[Decorate], e.decorate) else e.decorate)
      && r.decorateRequest == e.decorateRequest
      && r.decorateReply == (if DecorateReply in t.decorators
                             then WrapTimes(t.decorators[DecorateReply], e.decorateReply, 2)
                             else e.decorateReply)
  {
    var e1 := WrapDecorator(t.decorators, Decorate, e);
    var e2 := WrapDecorator(t.decorators, DecorateReply, e1);
    var e3 := WrapDecorator(t.decorators, DecorateReply, e2);
    assert e1.Decorator(DecorateReply) == e.Decorator(DecorateReply);
    assert e3.Decorator(Decorate) == e1.Decorator(Decorate);
    assert e3.Decorator(DecorateRequest) == e.Decorator(DecorateRequest);
    if DecorateReply in t.decorators {
      var d := t.decorators[DecorateReply];
      assert e2.Decorator(DecorateReply) == Wrapped(d, e.decorateReply) == WrapTimes(d, e.decorateReply, 1);
    }
  }

  /**
   * What an installation does to each entry point: `decorateRequest` is never
   * intercepted; `decorate` and `decorateReply` substitute from their section
   * exactly as one wrap (the second wrap of `decorateReply` composes to the
   * same); `register` and `addHook` substitute from their tables.
   */
  lemma InstalledForwarding(t: Tables, log: Logger, e: Slots)
    ensures var r := Installed(t, log, e);
      && r.decorateRequest == e.decorateRequest
      && (forall kind, name, v :: kind != DecorateRequest ==>
            Forward(r.Decorator(kind), name, v) ==
            Forward(e.Decorator(kind), name,
                    if kind in t.decorators then SelectValue(t.decorators[kind], name, v) else v))
      && (forall name, h :: Forward(r.addHook, name, h) == Forward(e.addHook, name, SelectValue(t.hooks, name, h)))
      && (forall v :: RegisterForward(r.register, v) ==
            if IsNullish(v) then None else RegisterForward(e.register, SelectPlugin(t.plugins, Unwrap(v))))
  {
    InstalledLayers(t, log, e);
    var r := Installed(t, log, e);
    forall kind, name, v | kind != DecorateRequest
      ensures Forward(r.Decorator(kind), name, v) ==
              Forward(e.Decorator(kind), name,
                      if kind in t.decorators then SelectValue(t.decorators[kind], name, v) else v)
    {
      if kind == DecorateReply && DecorateReply in t.decorators {
        RewrapIsIdempotent(t.decorators[DecorateReply], e.decorateReply, 2, name, v);
      }
    }
    forall name, h
      ensures Forward(r.addHook, name, h) == Forward(e.addHook, name, SelectValue(t.hooks, name, h))
    {
      assert r.addHook == Wrapped(t.hooks, e.addHook);
    }
    forall v
      ensures RegisterForward(r.register, v) ==
              if IsNullish(v) then None else RegisterForward(e.register, SelectPlugin(t.plugins, Unwrap(v)))
    {
      assert r.register == WrappedRegister(t.plugins, log, e.register);
    }
  }

  /**
   * With an absent or empty configuration, installing intercepts nothing:
   * hooks and decorators reach the host exactly as passed, and a registration
   * value reaches it as passed after module-namespace unwrapping.
   */
  lemma EmptyConfigurationIsTransparent(t: Tables, log: Logger, e: Slots)
    requires t == EmptyTables
    ensures var r := Installed(t, log, e);
      && (forall kind :: r.Decorator(kind) == e.Decorator(kind))
      && (forall name, h :: Forward(r.addHook, name, h) == Forward(e.addHook, name, h))
      && (forall v :: !IsNullish(v) ==> RegisterForward(r.register, v) == RegisterForward(e.register, Unwrap(v)))
  {
    InstalledLayers(t, log, e);
    var r := Installed(t, log, e);
    forall kind
      ensures r.Decorator(kind) == e.Decorator(kind)
    {
      assert Decorate !in t.decorators && DecorateReply !in t.decorators;
    }
    forall name, h
      ensures Forward(r.addHook, name, h) == Forward(e.addHook, name, h)
    {
      assert r.addHook == Wrapped(map[], e.addHook);
      assert SelectValue(map[], name, h) == h;
    }
    forall v | !IsNullish(v)
      ensures RegisterForward(r.register, v) == RegisterForward(e.register, Unwrap(v))
    {
      assert r.register == WrappedRegister(map[], log, e.register);
      assert SelectPlugin(map[], Unwrap(v)) == Unwrap(v);
    }
  }
}
