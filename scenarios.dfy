/**
 * The repository's test scenarios replayed on the model. Each method builds
 * its instances, runs the calls a test makes (the host running a plugin is
 * written out as the calls that plugin makes), and states what the host's
 * original entry points received.
 */
module Scenarios {
  import opened Wrappers
  import opened JsValues
  import opened OverrideTables
  import opened Logging
  import opened EntryPoints
  import opened Sequences
  import opened Instance

  const OnRequest := "onRequest"
  const OnClose := "onClose"

  /** A plugin wrapped by fastify-plugin with the name `decoratorPlugin`. */
  const DecoratorPlugin := Fn(1, Some("decoratorPlugin"))
  /** The test double configured for it. */
  const Double := Fn(2, None)

  function PluginsOnly(plugins: map<string, Val>): (o: Options) {
    Options(Some(Override(Some(plugins), None, None)))
  }

  function HooksOnly(hooks: map<string, Val>): (o: Options) {
    Options(Some(Override(None, None, Some(hooks))))
  }

  /**
   * A tagged plugin is replaced by its double, which then runs on the same
   * instance and decorates it.
   */
  method OverrideSimplePlugin() returns (registered: seq<Registration>, decorated: map<string, Val>)
    ensures registered == [Registration(Double, Undefined)]
    ensures "foo" in decorated && decorated["foo"] == Str("bar")
  {
    var app := new Node.Root();
    var plugins := map["decoratorPlugin" := Double];
    assert ResolveTables(PluginsOnly(plugins)) == Tables(plugins, map[], map[]);
    app.Install(PluginsOnly(plugins));
    assert app.register == WrappedRegister(plugins, app.log, OriginalRegister);
    assert app.decorate == Original;
    assert Loggers(app.register) == {app.log};
    var _ := app.Register(DecoratorPlugin, Undefined);
    assert app.registered == [Registration(Double, Undefined)];
    // the host runs the double on app
    var _ := app.Decorate(Kind.Decorate, "foo", Str("bar"), Undefined);
    assert app.decorations == [Decoration(Kind.Decorate, "foo", Str("bar"), Undefined)];
    DecorationIsLatestCall(app.decorations, Kind.Decorate, 0);
    registered, decorated := app.registered, app.Decorated(Kind.Decorate);
  }

  /**
   * Registrations completed before the installation keep the real plugin;
   * those made afterwards, from a child created afterwards, get the double.
   */
  method OverrideAfterEarlierRegistration() returns (before: seq<Registration>, after: seq<Registration>)
    ensures before == [Registration(DecoratorPlugin, Undefined)]
    ensures after == [Registration(Double, Undefined)]
  {
    var app := new Node.Root();
    var first := new Node.Child(app);
    var _ := first.Register(DecoratorPlugin, Undefined);
    app.Install(PluginsOnly(map["decoratorPlugin" := Double]));
    var second := new Node.Child(app);
    var _ := second.Register(DecoratorPlugin, Undefined);
    before, after := first.registered, second.registered;
  }

  /** The default export of a module-namespace object is what gets matched and replaced. */
  method OverrideNamespaceDefault() returns (registered: seq<Registration>)
    ensures registered == [Registration(Double, Undefined)]
  {
    var app := new Node.Root();
    app.Install(PluginsOnly(map["decoratorPlugin" := Double]));
    assert Loggers(app.register) == {app.log};
    var _ := app.Register(Obj(3, None, None, Some(DecoratorPlugin)), Undefined);
    registered := app.registered;
  }

  /**
   * A pending `import()` is handed on unchanged, after one debug notice, with
   * no configuration at all.
   */
  method ThenableIsLoggedAndPassed() returns (registered: seq<Registration>, debugs: seq<string>)
    ensures registered == [Registration(Obj(4, None, Some(Fn(5, None)), None), Undefined)]
    ensures debugs == [NotOverridable]
  {
    var app := new Node.Root();
    app.Install(Options(None));
    var pending := Obj(4, None, Some(Fn(5, None)), None);
    assert Loggers(app.register) == {app.log};
    assert Notices(app.register, pending, app.log) == 1;
    var _ := app.Register(pending, Undefined);
    registered, debugs := app.registered, app.log.debugs;
    assert Repeat(NotOverridable, 1) == [NotOverridable];
  }

  /**
   * A configured decorator that nothing installs stays absent; once a plugin
   * decorates, the configured name gets the configured value and the other
   * name keeps its own.
   */
  method OverrideOnlyExistingDecorator() returns (untouched: map<string, Val>, decorated: map<string, Val>)
    ensures untouched == map[]
    ensures "foo" in decorated && decorated["foo"] == Num(17)
    ensures "bar" in decorated && decorated["bar"] == Str("test")
  {
    var app := new Node.Root();
    var table := map["foo" := Num(17)];
    app.Install(Options(Some(Override(None, Some(map[Kind.Decorate := table]), None))));
    assert app.decorate == Wrapped(table, Original);
    untouched := app.Decorated(Kind.Decorate);
    assert Loggers(app.register) == {app.log};
    var _ := app.Register(DecoratorPlugin, Undefined);
    // the host runs the decorator plugin on app
    var _ := app.Decorate(Kind.Decorate, "foo", Num(42), Undefined);
    var _ := app.Decorate(Kind.Decorate, "bar", Str("test"), Undefined);
    assert Forward(Wrapped(table, Original), "foo", Num(42)) == Num(17);
    assert Forward(Wrapped(table, Original), "bar", Str("test")) == Str("test");
    var ds := app.decorations;
    assert ds == [Decoration(Kind.Decorate, "foo", Num(17), Undefined), Decoration(Kind.Decorate, "bar", Str("test"), Undefined)];
    DecorationIsLatestCall(ds, Kind.Decorate, 0);
    DecorationIsLatestCall(ds, Kind.Decorate, 1);
    decorated := app.Decorated(Kind.Decorate);
  }

  /** Two `onRequest` registrations install the replacement twice; `onClose` is never registered. */
  method OverrideHookTwice(h: Val, c: Val, mine: Val, theirs: Val) returns (hooks: seq<HookEntry>)
    requires !IsNullish(h) && !IsNullish(c)
    ensures hooks == [HookEntry(OnRequest, h), HookEntry(OnRequest, h)]
  {
    var app := new Node.Root();
    app.Install(HooksOnly(map[OnRequest := h, OnClose := c]));
    var _ := app.AddHook(OnRequest, theirs);
    var _ := app.AddHook(OnRequest, mine);
    hooks := app.hooks;
  }

  /** A hook added before the installation keeps its handler. */
  method OverrideHooksAfterInstallationOnly(h: Val, earlier: Val, later: Val) returns (hooks: seq<HookEntry>)
    requires !IsNullish(h)
    ensures hooks == [HookEntry(OnRequest, earlier), HookEntry(OnRequest, h)]
  {
    var app := new Node.Root();
    var _ := app.AddHook(OnRequest, earlier);
    app.Install(HooksOnly(map[OnRequest := h, "preParsing" := h]));
    var _ := app.AddHook(OnRequest, later);
    hooks := app.hooks;
  }

  /** An instance with `plg`, `decorate.foo` and `onRequest` all configured. */
  method InstallPriorityConfig(first: Val) returns (app: Node)
    ensures fresh(app) && fresh(app.log)
    ensures app.register == WrappedRegister(map["plg" := Double], app.log, OriginalRegister)
    ensures app.decorate == Wrapped(map["foo" := Num(30)], Original)
    ensures app.addHook == Wrapped(map[OnRequest := first], Original)
    ensures app.registered == [] && app.hooks == [] && app.decorations == []
  {
    app := new Node.Root();
    var plugins, decorators, hookTable := map["plg" := Double], map["foo" := Num(30)], map[OnRequest := first];
    var opts := Options(Some(Override(Some(plugins), Some(map[Kind.Decorate := decorators]), Some(hookTable))));
    assert ResolveTables(opts) == Tables(plugins, map[Kind.Decorate := decorators], hookTable);
    app.Install(opts);
  }

  /**
   * Decorator and hook overrides win over what the replacement plugin itself
   * installs, because it runs on the intercepted instance.
   */
  method OverridesWinOverReplacementPlugin(first: Val, third: Val)
    returns (registered: seq<Registration>, decorated: map<string, Val>, hooks: seq<HookEntry>)
    requires !IsNullish(first)
    ensures registered == [Registration(Double, Undefined)]
    ensures "foo" in decorated && decorated["foo"] == Num(30)
    ensures hooks == [HookEntry(OnRequest, first)]
  {
    var app := InstallPriorityConfig(first);
    var plg := Fn(6, Some("plg"));
    assert Loggers(app.register) == {app.log};
    assert RegisterForward(app.register, plg) == Some(Double);
    var _ := app.Register(plg, Undefined);
    assert app.registered == [Registration(Double, Undefined)];
    assert app.decorate == Wrapped(map["foo" := Num(30)], Original);
    // the host runs the replacement on app
    assert Forward(app.decorate, "foo", Num(20)) == Num(30);
    var _ := app.Decorate(Kind.Decorate, "foo", Num(20), Undefined);
    assert app.decorations == [Decoration(Kind.Decorate, "foo", Num(30), Undefined)];
    DecorationIsLatestCall(app.decorations, Kind.Decorate, 0);
    assert app.addHook == Wrapped(map[OnRequest := first], Original);
    var _ := app.AddHook(OnRequest, third);
    registered, decorated, hooks := app.registered, app.Decorated(Kind.Decorate), app.hooks;
  }

  /**
   * Installing in a child leaves the parent alone, before and after the
   * installation, while the child's own hooks are replaced.
   */
  method OverrideOnlyInCurrentContext(first: Val, second: Val, third: Val, fourth: Val)
    returns (parentHooks: seq<HookEntry>, childHooks: seq<HookEntry>)
    requires !IsNullish(first)
    ensures parentHooks == [HookEntry(OnRequest, third), HookEntry(OnRequest, fourth)]
    ensures childHooks == [HookEntry(OnRequest, first)]
  {
    var app := new Node.Root();
    var _ := app.AddHook(OnRequest, third);
    var child := new Node.Child(app);
    child.Install(HooksOnly(map[OnRequest := first]));
    var _ := child.AddHook(OnRequest, second);
    var _ := app.AddHook(OnRequest, fourth);
    parentHooks, childHooks := app.hooks, child.hooks;
  }
}
