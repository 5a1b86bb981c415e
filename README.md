# fastify-override, modelled in Dafny

`fastify-override` is a Fastify plugin for tests. Installed on an instance, it
replaces three kinds of registration entry point with intercepting wrappers:
`register`, `addHook`, and two of the `decorate*` family. Each wrapper looks
the call up in an override table and then calls the entry point it replaced,
passing either the configured test double or the caller's own argument. The
three tables are:

- `plugins`, keyed by a plugin's display name;
- `hooks`, keyed by hook name;
- `decorators`, keyed by decorator kind and then by decorator name.

The model has these parts:

- `values.dfy` (`JsValues`): the JavaScript values the wrappers inspect. It
  covers functions and objects with their display-name tag, `then` and
  `default` members, plus null, undefined, strings and numbers. It defines
  the `??` operator, the promise-like and module-namespace tests, the unwrap
  step and the identity of a registration value.
- `tables.dfy` (`OverrideTables`): the `override` option and its defaults
  (`index.js:9`). It also holds the selections each wrapper makes per call:
  `table[key] ?? value` for hooks and decorators, and the plugin selection by
  display name.
- `entrypoints.dfy` (`EntryPoints`): every entry point as a chain of wrapper
  closures. Each layer captures its table and the slot it replaced, and a
  register layer also captures the logger of the instance it was installed
  on. `Forward` and `RegisterForward` give what the host's own entry point
  receives through a chain. `Installed` is the install sequence of
  `index.js:69-73`, written as a function on the five slots.
- `node.dfy` (`Instance`): a `Node` class, i.e. a Fastify instance. It holds
  the five mutable slots, the logger, and a record of what the host's
  original entry points received on it: registrations, hooks and
  decorations. Its methods are the wrapped calls (`Register`, `AddHook`,
  `Decorate`) and the installers (`OverrideDecorate`, `OverrideRegister`,
  `OverrideAddHook`, `Install`). Each installer overwrites its slot in place.
  A child scope inherits its parent's slots as they are when it is created.
  A wrapper forwards with `this` bound to the caller, so the caller's record
  is the one that grows.
- `logging.dfy`, `sequences.dfy`, `wrappers.dfy`: the logger (debug
  messages only), `Repeat`, and `Option`.
- `scenarios.dfy` (`Scenarios`): the repository's test cases replayed on the
  model. When the host would run a plugin, the scenario writes out the calls
  that plugin makes on the instance it runs on.

Behaviours of the code worth knowing:

- With several installations on one instance, each wrapper calls the
  wrapper installed before it, and that one substitutes again. So for hooks
  and decorators the entry of the EARLIEST installation wins
  (`EntryPoints.Replacement`, `EntryPoints.ForwardIsReplacement`). For
  `register`, an older layer matches the plugin the newer layer handed on by
  that plugin's own display name. A replacement is therefore replaced again
  when its own tag is configured in an earlier installation's table
  (`EntryPoints.RegisterForward`).
- A thenable that has a display-name tag or a function `default` member is
  matched like any other object. Only a plain thenable, such as a pending
  `import()`, passes through unchanged (`EntryPoints.ThenablePassesThrough`).
- The register chain (`EntryPoints.RegisterForward`, `Instance.Node.Register`)
  uses the corrected plugin selection `OverrideTables.SelectPlugin`, not the
  expression at `index.js:35` as written. The two differ only for a value
  whose display name is the empty string (see "## Findings").
- `index.js:70-71` wrap `decorateReply` twice and never wrap
  `decorateRequest`, although the typings (`index.d.ts:44`) accept a
  `decorators.decorateRequest` section. Such a section is ignored without a
  word: `EntryPoints.InstalledLayers` and `EntryPoints.Installed` state that
  `decorateRequest` is left as it was.
- Even with an empty configuration, the register wrapper still unwraps
  module-namespace objects and still logs for thenables
  (`EntryPoints.EmptyConfigurationIsTransparent`).

## Model

| member | source | states |
|---|---|---|
| `JsValues.Unwrap` | index.js:31-33 | a namespace object whose `default` member is a function becomes that function; anything else is kept; the result is never itself a namespace object and is nullish exactly when the input is |
| `JsValues.Coalesce` | index.js:17 | `a ?? b`: `a` unless it is null or undefined, and `b` then |
| `JsValues.IsPromiseLike` | index.js:61-67 | true only for a non-null value of type `'object'`, and for such an object exactly when its `then` member is a function |
| `JsValues.IsBundledOrTypescriptPlugin` | index.js:52-58 | true only for a non-null value of type `'object'`, and for such an object exactly when its `default` member is a function |
| `JsValues.Resolve` | index.js:31-35 | a value has an identity exactly when its display name after unwrapping is truthy, and the identity is then that name: the value's own tag, or the default export's |
| `JsValues.PlainThenableHasNoIdentity` | index.js:61-67 | a promise-like object with no tag and no default export has no identity |
| `OverrideTables.ResolveTables` | index.js:9 | an absent `override` gives three empty tables; a missing section defaults to `{}`; a given section is used as is |
| `OverrideTables.SelectValue` | index.js:45 | `table[key] ?? v`: the configured value when the key holds a non-nullish entry, the caller's value otherwise (the same selection as index.js:17) |
| `OverrideTables.SelectPlugin` | index.js:35 | a value with a truthy tag that the plugins table configures is replaced by the configured plugin; every other value is kept; the result is never nullish |
| `OverrideTables.SelectPluginAsWritten` | index.js:35 | the expression as written: an untagged value is kept, an empty-string tag yields the string `""`, a truthy configured tag yields its entry, and an unconfigured one keeps the value |
| `OverrideTables.SelectPluginAgreesAsWritten` | index.js:35 | the corrected selection equals the expression as written for every value whose tag is not the empty string |
| `OverrideTables.EmptyTagRegistersEmptyString` | index.js:35 | as written, a function tagged `""` is handed on as the string `""`; the corrected selection keeps the function |
| `OverrideTables.SelectPluginByIdentity` | index.js:31-35 | with the corrected plugin selection, a value is replaced after unwrapping exactly when its identity is configured, and then by that entry |
| `EntryPoints.Forward` | index.js:44-48 | what the host's `addHook`/`decorate*` receives through a chain is the caller's value or a value some layer configures for that key |
| `EntryPoints.ForwardIsReplacement` | index.js:44-48 | substitution is per call: when a layer configures the key, the host receives the earliest installation's entry whatever the caller passed; otherwise it receives the caller's value |
| `EntryPoints.UnconfiguredKeyPassesThrough` | index.js:16-19 | a key that no layer configures passes every value through unchanged |
| `EntryPoints.RewrapIsIdempotent` | index.js:70-71 | wrapping a decorator slot n >= 1 times with the same table forwards exactly what one wrap forwards |
| `EntryPoints.RegisterForward` | index.js:26-37 | through a wrapper, `register(null or undefined)` throws a TypeError; any other value reaches the host as a non-nullish plugin |
| `EntryPoints.NoticesOnlyToChainLoggers` | index.js:28 | only the loggers of the instances that installed a wrapper receive notices |
| `EntryPoints.Notices` | index.js:27-29 | each layer of a register chain logs at most one notice per call, and only to the logger of the instance it was installed on |
| `EntryPoints.NoticeIsPerPromiseLikeCall` | index.js:27-29 | a layer logs exactly one notice to its installer's logger for a promise-like value, whatever its tag or default export, and none for any other value |
| `EntryPoints.NoIdentityIsNeverSubstituted` | index.js:31-37 | with the corrected plugin selection, a value without identity is never substituted by any chain: the host receives it unchanged, after unwrapping when a wrapper is present |
| `EntryPoints.ThenablePassesThrough` | index.js:27-37 | a plain thenable reaches the host unchanged, and each logger receives exactly one notice per layer installed on its instance, so one per call for a single installation |
| `EntryPoints.WrapDecorator` | index.js:11-21 | a decorator kind is wrapped only when the decorators table has a section for it, and the other slots are untouched |
| `EntryPoints.WrapRegister` | index.js:23-39 | the register slot becomes a layer over the previous one with the plugins table and the installing instance's logger, which joins the chain's loggers; the other slots stay |
| `EntryPoints.WrapAddHook` | index.js:41-49 | the addHook slot becomes a layer that forwards `hooks[name] ?? hook` to the previous slot; the other slots stay |
| `EntryPoints.Installed` | index.js:69-73 | the install sequence wraps `register` over the old register slot with the plugins table and this instance's logger, wraps `addHook` with the hooks table, and leaves `decorateRequest` alone |
| `EntryPoints.InstalledLayers` | index.js:69-73 | installation wraps `register` and `addHook` once, `decorate` once if configured, `decorateReply` twice if configured, and never `decorateRequest` |
| `EntryPoints.InstalledForwarding` | index.js:69-73 | after installation each intercepted entry point substitutes from its table before reaching the previous slot (with the corrected plugin selection for `register`), and `decorateReply` behaves as a single wrap |
| `EntryPoints.EmptyConfigurationIsTransparent` | index.js:8-9 | with absent or empty tables no decorator slot changes, hooks reach the host exactly as passed, and, with the corrected plugin selection, registrations reach it as passed after unwrapping |
| `Instance.DecorationMap` | index.js:11-21 | a name is decorated for a kind exactly when some decorate call of that kind for that name reached the host, so an override nothing triggers never appears |
| `Instance.DecorationIsLatestCall` | index.js:16-19 | the value of a decoration is the value the latest call for that name handed to the host |
| `Instance.HookCalls` | index.js:44-48 | the host receives one entry per `addHook` call, in order: the caller's name with the handler the chain forwards for it |
| `Instance.RepeatedHookCalls` | index.js:44-48 | k calls for an overridden name record k copies of the replacement and none of the callers' handlers |
| `Logging.Logger.Debug` | index.js:28 | a debug call appends its message to the logger |
| `Instance.Node.Root` | test/index.test.js:10 | a fresh instance has the host's own entry points, empty records and a fresh logger |
| `Instance.Node.Child` | test/index.test.js:320-332 | a child scope starts with its parent's current entry points and logger, and empty records |
| `Instance.Node.Register` | index.js:26-38 | the host's `register` receives the forwarded plugin with the caller's options unchanged, and the call returns what it returns (the instance); or a TypeError is thrown and nothing is recorded; every chain logger gains one notice per promise-like layer input |
| `Instance.Node.AddHook` | index.js:44-48 | the host's `addHook` receives the name unchanged with the forwarded handler; a wrapped call returns nothing, the host's own returns the instance |
| `Instance.Node.AddHooks` | index.js:44-48 | successive `addHook` calls grow the record by one forwarded entry per call, in order, as `Instance.HookCalls` gives them |
| `Instance.Node.Decorate` | index.js:16-20 | the host's `decorate*` of that kind receives the name, the forwarded value and the dependencies unchanged, and the call returns the instance |
| `Instance.Node.OverrideDecorate` | index.js:11-21 | the slot for the kind is wrapped over its current value when that kind is configured, and nothing else changes |
| `Instance.Node.OverrideRegister` | index.js:23-39 | the register slot becomes a wrapper over its current value, capturing this instance's logger |
| `Instance.Node.OverrideAddHook` | index.js:41-49 | the addHook slot becomes a wrapper over its current value |
| `Instance.Node.Install` | index.js:69-73 | the slots become `Installed` of the old slots, and the record of every call completed before installation is unchanged (forward-only) |
| `Scenarios.OverrideSimplePlugin` | test/index.test.js:18-32 | the tagged plugin is replaced by its double, whose decoration is then present |
| `Scenarios.OverrideAfterEarlierRegistration` | test/index.test.js:62-89 | a registration completed before installation keeps the real plugin; a later one from a new child gets the double |
| `Scenarios.OverrideNamespaceDefault` | test/ecmascript-module.test.mjs:7-25 | the default export of a namespace object is matched and replaced |
| `Scenarios.ThenableIsLoggedAndPassed` | test/ecmascript-module.test.mjs:27-53 | a pending import is registered unchanged after exactly one "cannot be overridden" notice |
| `Scenarios.OverrideOnlyExistingDecorator` | test/index.test.js:136-169 | a configured decorator nobody installs stays absent; once installed it takes the configured value, and an unconfigured name keeps its own |
| `Scenarios.OverrideHookTwice` | test/index.test.js:233-258 | two `onRequest` registrations record the replacement twice |
| `Scenarios.OverrideHooksAfterInstallationOnly` | test/index.test.js:207-231 | a hook added before installation keeps its handler; one added afterwards is replaced |
| `Scenarios.OverridesWinOverReplacementPlugin` | test/index.test.js:261-307 | the decorator and hook overrides win over the values the replacement plugin itself installs |
| `Scenarios.OverrideOnlyInCurrentContext` | test/index.test.js:309-346 | installing in a child leaves the parent's hooks alone, both before and after, while the child's are replaced |

## Left out

- The host runtime (Fastify and avvio) is not modelled. That covers instance
  creation and encapsulation, running a registered plugin, ready/close,
  routes, `inject`, and running hooks on a request. A child scope is a node
  that inherits its parent's slots, and a plugin run is written out as the
  calls it makes. "Handler invoked k times" is stated as "k entries recorded".
- A child takes a snapshot of its parent's slots when it is created. In
  Fastify a child has its parent as prototype, so a child created before an
  installation on its parent would reach the new wrappers in calls it makes
  afterwards. The snapshot does not capture this; avvio's serial setup makes
  such calls rare.
- The host's own entry points only record what they receive. The model omits
  their checks: avvio's plugin-type check, Fastify's errors for duplicate
  decorators, missing dependencies and unknown hook names.
- The host's original `addHook`, `register` and `decorate` are taken to
  return the instance, as Fastify's do.
- The logger is reduced to debug messages. A child shares its parent's
  logger.
- EntryPoints.RegisterForward: uses the corrected selection
  `OverrideTables.SelectPlugin`. For a value whose display name is the empty
  string it hands on the value itself, where `index.js:35` as written hands
  on the string `""` (`OverrideTables.EmptyTagRegistersEmptyString`).
- Instance.Node.Register: records the plugin the corrected selection gives,
  so for an empty-string display name the record holds the value, not the
  `""` the source's host would receive.
- EntryPoints.NoIdentityIsNeverSubstituted: holds for the corrected
  selection. As written, `index.js:35` turns a value whose display name is
  `""` (and so has no identity) into the string `""`.
- EntryPoints.EmptyConfigurationIsTransparent: holds for the corrected
  selection. With `plugins = {}`, `index.js:35` as written still turns a
  value whose display name is `""` into the string `""`.
- Instance.Node.Register: what a logger receives is stated only for
  loggers that existed before the call. Every logger a chain can hold is one
  of these.
- Installation is applied directly to the node. The code goes through
  fastify-plugin (`index.js:76-79`): its name and `fastify: '4.x'` version
  check, and the module exports at `index.js:81-83`, are library calls.
  Installing also happens inside the host's own registration of the plugin,
  which could itself pass through an earlier `register` wrapper. That
  interaction is not modelled.
- async/await and promise settlement are not modelled. The setup phase runs
  calls in order, so the model is a sequence of method calls.
- The tables are finite maps. Lookups through the JavaScript prototype, such
  as `hooks['toString']`, are not modelled. Decorator names and display-name
  tags are strings: symbol keys and non-string tags are not modelled.
- An override section given as `null` is not modelled. Destructuring
  defaults apply only to `undefined`, so the source would throw on the first
  lookup. Likewise, a `decorators` entry for a kind is either absent or a
  table; other truthy non-object values are not modelled.
- The `hooks-plugin` fixture used by some tests is not part of this model.
  The scenarios write its `addHook` call out directly.

## Findings

| source | as written | input that shows it | evidently intended | confidence | as-written member | corrected member |
|---|---|---|---|---|---|---|
| index.js:35 | `(fn[kFastifyDisplayName] && plugins[fn[kFastifyDisplayName]]) ?? fn` | a function whose display-name tag is `""`: `&&` yields `""`, which `??` keeps, so the host's `register` receives the string `""` instead of the function | a value whose tag is falsy is registered unchanged | low, not executed (fastify-plugin never sets an empty name; a hand-set tag does) | `OverrideTables.SelectPluginAsWritten`, exhibited by `OverrideTables.EmptyTagRegistersEmptyString` | `OverrideTables.SelectPlugin` (used by the register wrapper), agreeing with the expression as written elsewhere: `OverrideTables.SelectPluginAgreesAsWritten` |
