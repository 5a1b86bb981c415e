/**
 * A Fastify instance as the interception layer sees it: five mutable
 * entry-point slots, the logger, and what the host's original entry points
 * have received on this instance.
 */
module Instance {
  import opened Wrappers
  import opened JsValues
  import opened OverrideTables
  import opened Logging
  import opened Sequences
  import opened EntryPoints

  /** A call the original `register` received. */
  datatype Registration = Registration(plugin: Val, options: Val)

  /** A call the original `addHook` received. */
  datatype HookEntry = HookEntry(name: string, handler: Val)

  /** A call an original `decorate*` entry point received. */
  datatype Decoration = Decoration(kind: Kind, name: string, value: Val, dependencies: Val)

  /**
   * The decorations of one kind that a sequence of original `decorate*` calls
   * leaves in place, the latest call for a name deciding its value.
   */
  function DecorationMap(ds: seq<Decoration>, kind: Kind): (m: map<string, Val>)
    ensures forall name :: name in m <==> exists i :: 0 <= i < |ds| && ds[i].kind == kind && ds[i].name == name
  {
    if ds == [] then map[]
    else
      var last := ds[|ds| - 1];
      var m := DecorationMap(ds[..|ds| - 1], kind);
      if last.kind == kind then m[last.name := last.value] else m
  }

  /** The value of a decoration is the one passed by the latest call for its kind and name. */
  lemma {:induction false} DecorationIsLatestCall(ds: seq<Decoration>, kind: Kind, i: nat)
    requires i < |ds| && ds[i].kind == kind
    requires forall j :: i < j < |ds| ==> !(ds[j].kind == kind && ds[j].name == ds[i].name)
    ensures ds[i].name in DecorationMap(ds, kind)
    ensures DecorationMap(ds, kind)[ds[i].name] == ds[i].value
  {
    var last := ds[|ds| - 1];
    if i < |ds| - 1 {
      DecorationIsLatestCall(ds[..|ds| - 1], kind, i);
      assert !(last.kind == kind && last.name == ds[i].name);
    }
  }

  /** What the original `addHook` receives for a sequence of `addHook` calls through `slot`. */
  function HookCalls(slot: ValueSlot, calls: seq<HookEntry>): (r: seq<HookEntry>)
    ensures |r| == |calls|
    ensures forall i :: 0 <= i < |calls| ==>
              r[i] == HookEntry(calls[i].name, Forward(slot, calls[i].name, calls[i].handler))
  {
    if calls == [] then []
    else
      var last := calls[|calls| - 1];
      HookCalls(slot, calls[..|calls| - 1]) + [HookEntry(last.name, Forward(slot, last.name, last.handler))]
  }

  /**
   * `k` calls under a name with a replacement install `k` copies of the
   * replacement and none of the callers' handlers.
   */
  lemma {:induction false} RepeatedHookCalls(slot: ValueSlot, name: string, calls: seq<HookEntry>)
    requires Replacement(slot, name).Some?
    requires forall i :: 0 <= i < |calls| ==> calls[i].name == name
    ensures HookCalls(slot, calls) == Repeat(HookEntry(name, Replacement(slot, name).value), |calls|)
  {
    if calls != [] {
      ForwardIsReplacement(slot, name, calls[|calls| - 1].handler);
      RepeatedHookCalls(slot, name, calls[..|calls| - 1]);
    }
  }

  /** The result of an intercepted `register` call. */
  datatype Outcome = Returned(instance: Node) | ThrewTypeError

  class Node {
    var register: RegisterSlot
    var addHook: ValueSlot
    var decorate: ValueSlot
    var decorateRequest: ValueSlot
    var decorateReply: ValueSlot
    /** `instance.log`. */
    const log: Logger
    /** What the original `register` received on this instance, in order. */
    var registered: seq<Registration>
    /** What the original `addHook` received on this instance, in order. */
    var hooks: seq<HookEntry>
    /** What the original `decorate*` entry points received on this instance, in order. */
    var decorations: seq<Decoration>

    function EntryPoints(): (e: Slots)
      reads this
    {
      Slots(register, addHook, decorate, decorateRequest, decorateReply)
    }

    /** The decorations of `kind` present on this instance. */
    function Decorated(kind: Kind): (m: map<string, Val>)
      reads this
    {
      DecorationMap(decorations, kind)
    }

    /** A root instance with the host's own entry points. */
    constructor Root()
      ensures EntryPoints() == HostSlots
      ensures registered == [] && hooks == [] && decorations == []
      ensures fresh(log) && log.debugs == []
    {
      register, addHook := OriginalRegister, Original;
      decorate, decorateRequest, decorateReply := Original, Original, Original;
      log := new Logger();
      registered, hooks, decorations := [], [], [];
    }

    /** A child scope: it inherits the parent's current entry points and logger. */
    constructor Child(parent: Node)
      ensures EntryPoints() == parent.EntryPoints() && log == parent.log
      ensures registered == [] && hooks == [] && decorations == []
    {
      register, addHook := parent.register, parent.addHook;
      decorate, decorateRequest, decorateReply := parent.decorate, parent.decorateRequest, parent.decorateReply;
      log := parent.log;
      registered, hooks, decorations := [], [], [];
    }

    /**
     * `instance.register(fn, options)`: the host's original receives the
     * forwarded plugin and the caller's options, and the call returns what
     * the original returns (the instance), unless a wrapper throws.
     */
    method Register(fn: Val, options: Val) returns (r: Outcome)
      modifies this`registered, Loggers(register)
      ensures match RegisterForward(register, fn)
        case Some(p) => registered == old(registered) + [Registration(p, options)] && r == Returned(this)
        case None => registered == old(registered) && r == ThrewTypeError
      ensures forall l :: l in Loggers(register) && old(allocated(l)) ==>
                l.debugs == old(l.debugs) + Repeat(NotOverridable, Notices(register, fn, l))
    {
      r := CallRegister(register, fn, options);
    }

    /** Calls the register slot `slot` with `this` bound to this instance. */
    method CallRegister(slot: RegisterSlot, fn: Val, options: Val) returns (r: Outcome)
      modifies this`registered, Loggers(slot)
      decreases slot
      ensures match RegisterForward(slot, fn)
        case Some(p) => registered == old(registered) + [Registration(p, options)] && r == Returned(this)
        case None => registered == old(registered) && r == ThrewTypeError
      ensures forall l :: l in Loggers(slot) && old(allocated(l)) ==>
                l.debugs == old(l.debugs) + Repeat(NotOverridable, Notices(slot, fn, l))
    {
      match slot
      case OriginalRegister =>
        registered := registered + [Registration(fn, options)];
        r := Returned(this);
      case WrappedRegister(plugins, installer, original) =>
        if IsPromiseLike(fn) {
          installer.Debug(NotOverridable);
        }
        ghost var logged := map l | l in Loggers(slot) :: l.debugs;
        var unwrapped := Unwrap(fn);
        if IsNullish(unwrapped) {
          // reading the display name of null or undefined throws
          r := ThrewTypeError;
        } else {
          var plugin := SelectPlugin(plugins, unwrapped);
          r := CallRegister(original, plugin, options);
          forall l | l in Loggers(slot) && old(allocated(l))
            ensures l.debugs == old(l.debugs) + Repeat(NotOverridable, Notices(slot, fn, l))
          {
            var mine := if IsPromiseLike(fn) && installer == l then 1 else 0;
            assert logged[l] == old(l.debugs) + Repeat(NotOverridable, mine);
            if l !in Loggers(original) {
              NoticesOnlyToChainLoggers(original, plugin, l);
            }
            RepeatAdd(NotOverridable, mine, Notices(original, plugin, l));
          }
        }
    }

    /**
     * `instance.addHook(name, hook)`: the original receives the name and the
     * forwarded handler. The host's original returns the instance; an
     * intercepting wrapper returns nothing.
     */
    method AddHook(name: string, hook: Val) returns (r: Option<Node>)
      modifies this`hooks
      ensures hooks == old(hooks) + [HookEntry(name, Forward(addHook, name, hook))]
      ensures r == if addHook.Original? then Some(this) else None
    {
      r := CallAddHook(addHook, name, hook);
    }

    /**
     * A plugin's successive `addHook` calls on this instance: the record grows
     * by what `HookCalls` gives for them, in order.
     */
    method AddHooks(calls: seq<HookEntry>)
      modifies this`hooks
      ensures hooks == old(hooks) + HookCalls(addHook, calls)
    {
      var i := 0;
      while i < |calls|
        invariant 0 <= i <= |calls|
        invariant hooks == old(hooks) + HookCalls(addHook, calls[..i])
      {
        var _ := AddHook(calls[i].name, calls[i].handler);
        assert calls[..i + 1][..i] == calls[..i];
        i := i + 1;
      }
      assert calls[..i] == calls;
    }

    /** Calls the addHook slot `slot` with `this` bound to this instance. */
    method CallAddHook(slot: ValueSlot, name: string, hook: Val) returns (r: Option<Node>)
      modifies this`hooks
      decreases slot
      ensures hooks == old(hooks) + [HookEntry(name, Forward(slot, name, hook))]
      ensures r == if slot.Original? then Some(this) else None
    {
      match slot
      case Original =>
        hooks := hooks + [HookEntry(name, hook)];
        r := Some(this);
      case Wrapped(table, original) =>
        var hookFn := SelectValue(table, name, hook);
        var _ := CallAddHook(original, name, hookFn);
        r := None;
    }

    /**
     * `instance[kind](name, fn, dependencies)`: the original receives the
     * name, the forwarded value and the dependencies, and the call returns
     * the instance.
     */
    method Decorate(kind: Kind, name: string, fn: Val, dependencies: Val) returns (r: Node)
      modifies this`decorations
      ensures decorations == old(decorations) +
                [Decoration(kind, name, Forward(EntryPoints().Decorator(kind), name, fn), dependencies)]
      ensures r == this
    {
      r := CallDecorate(EntryPoints().Decorator(kind), kind, name, fn, dependencies);
    }

    /** Calls the `decorate*` slot `slot` of `kind` with `this` bound to this instance. */
    method CallDecorate(slot: ValueSlot, kind: Kind, name: string, fn: Val, dependencies: Val) returns (r: Node)
      modifies this`decorations
      decreases slot
      ensures decorations == old(decorations) + [Decoration(kind, name, Forward(slot, name, fn), dependencies)]
      ensures r == this
    {
      match slot
      case Original =>
        decorations := decorations + [Decoration(kind, name, fn, dependencies)];
        r := this;
      case Wrapped(table, original) =>
        var pluginFn := SelectValue(table, name, fn);
        r := CallDecorate(original, kind, name, pluginFn, dependencies);
    }

    /** `overrideDecorate(app, kind)`. */
    method OverrideDecorate(decorators: map<Kind, map<string, Val>>, kind: Kind)
      modifies this`decorate, this`decorateRequest, this`decorateReply
      ensures EntryPoints() == WrapDecorator(decorators, kind, old(EntryPoints()))
    {
      if kind !in decorators {
        return;
      }
      var original := EntryPoints().Decorator(kind);
      match kind
      case Decorate => decorate := Wrapped(decorators[kind], original);
      case DecorateRequest => decorateRequest := Wrapped(decorators[kind], original);
      case DecorateReply => decorateReply := Wrapped(decorators[kind], original);
    }

    /** `overrideRegister(app)`. */
    method OverrideRegister(plugins: map<string, Val>)
      modifies this`register
      ensures EntryPoints() == WrapRegister(plugins, log, old(EntryPoints()))
    {
      var original := register;
      register := WrappedRegister(plugins, log, original);
    }

    /** `overrideAddHook(app)`. */
    method OverrideAddHook(hooksTable: map<string, Val>)
      modifies this`addHook
      ensures EntryPoints() == WrapAddHook(hooksTable, old(EntryPoints()))
    {
      var original := addHook;
      addHook := Wrapped(hooksTable, original);
    }

    /**
     * `fastifyOverride(app, opts)` run on this instance: it wraps the current
     * entry points and leaves every call already made untouched.
     */
    method Install(opts: Options)
      modifies this`register, this`addHook, this`decorate, this`decorateRequest, this`decorateReply
      ensures EntryPoints() == Installed(ResolveTables(opts), log, old(EntryPoints()))
      ensures var t := ResolveTables(opts);
        && register == WrappedRegister(t.plugins, log, old(register))
        && addHook == Wrapped(t.hooks, old(addHook))
        && decorate == (if Kind.Decorate in t.decorators then Wrapped(t.decorators[Kind.Decorate], old(decorate))
                        else old(decorate))
        && decorateRequest == old(decorateRequest)
        && decorateReply == (if DecorateReply in t.decorators
                             then Wrapped(t.decorators[DecorateReply], Wrapped(t.decorators[DecorateReply], old(decorateReply)))
                             else old(decorateReply))
      ensures registered == old(registered) && hooks == old(hooks) && decorations == old(decorations)
    {
      var t := ResolveTables(opts);
      OverrideDecorate(t.decorators, Kind.Decorate);
      OverrideDecorate(t.decorators, DecorateReply);
      OverrideDecorate(t.decorators, DecorateReply);
      OverrideRegister(t.plugins);
      OverrideAddHook(t.hooks);
      InstalledLayers(t, log, old(EntryPoints()));
    }
  }
}
