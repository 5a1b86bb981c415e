/**
 * The override configuration and the per-call selections the wrappers make
 * against it.
 */
module OverrideTables {
  import opened Wrappers
  import opened JsValues

  /** The three decorator entry points of a Fastify instance. */
  datatype Kind = Decorate | DecorateRequest | DecorateReply

  /**
   * The `override` option: each section is a plain object, `None` when the
   * caller left it out.
   */
  datatype Override = Override(
    plugins: Option<map<string, Val>>,
    decorators: Option<map<Kind, map<string, Val>>>,
    hooks: Option<map<string, Val>>)

  /** The plugin options; `override` is `None` when undefined or null. */
  datatype Options = Options(override: Option<Override>)

  /** The three tables after destructuring, missing sections defaulted to `{}`. */
  datatype Tables = Tables(
    plugins: map<string, Val>,
    decorators: map<Kind, map<string, Val>>,
    hooks: map<string, Val>)

  const EmptyTables := Tables(map[], map[], map[])

  /** Destructures `opts.override ?? {}`, defaulting each missing section to `{}`. */
  function ResolveTables(opts: Options): (t: Tables)
    ensures opts.override.None? ==> t == EmptyTables
    ensures opts.override.Some? ==>
      && t.plugins == opts.override.value.plugins.GetOr(map[])
      && t.decorators == opts.override.value.decorators.GetOr(map[])
      && t.hooks == opts.override.value.hooks.GetOr(map[])
  {
    match opts.override
    case None => EmptyTables
    case Some(o) => Tables(o.plugins.GetOr(map[]), o.decorators.GetOr(map[]), o.hooks.GetOr(map[]))
  }

  /** `table[key]` on a plain object: undefined when the key is absent. */
  function Lookup(table: map<string, Val>, key: string): (r: Val)
    ensures key !in table ==> r == Undefined
    ensures key in table ==> r == table[key]
  {
    if key in table then table[key] else Undefined
  }

  /** Whether `table[key]` holds a value `??` does not skip. */
  predicate Configures(table: map<string, Val>, key: string) {
    key in table && !IsNullish(table[key])
  }

  /**
   * `table[key] ?? v`: the selection the hook wrapper (for a hook name) and the
   * decorator wrapper (for a decorator name) make on every call.
   */
  function SelectValue(table: map<string, Val>, key: string, v: Val): (r: Val)
    ensures Configures(table, key) ==> r == table[key]
    ensures !Configures(table, key) ==> r == v
  {
    Coalesce(Lookup(table, key), v)
  }

  /**
   * `(fn[kFastifyDisplayName] && plugins[fn[kFastifyDisplayName]]) ?? fn`,
   * exactly as written. For an empty-string tag `&&` yields that string,
   * which `??` keeps.
   */
  function SelectPluginAsWritten(plugins: map<string, Val>, fn: Val): (r: Val)
    requires !IsNullish(fn)
    ensures DisplayName(fn).None? ==> r == fn
    ensures DisplayName(fn) == Some("") ==> r == Str("")
    ensures IsTruthyTag(DisplayName(fn)) && Configures(plugins, DisplayName(fn).value) ==>
              r == plugins[DisplayName(fn).value]
    ensures IsTruthyTag(DisplayName(fn)) && !Configures(plugins, DisplayName(fn).value) ==> r == fn
  {
    var tag := DisplayName(fn);
    var left := if tag.None? then Undefined
                else if tag.value == "" then Str("")
                else Lookup(plugins, tag.value);
    Coalesce(left, fn)
  }

  /**
   * The plugin the register wrapper hands on: the configured replacement for
   * the value's truthy display name, otherwise the value itself.
   */
  function SelectPlugin(plugins: map<string, Val>, fn: Val): (r: Val)
    requires !IsNullish(fn)
    ensures !IsNullish(r)
    ensures !IsTruthyTag(DisplayName(fn)) ==> r == fn
    ensures IsTruthyTag(DisplayName(fn)) && Configures(plugins, DisplayName(fn).value) ==>
              r == plugins[DisplayName(fn).value]
    ensures IsTruthyTag(DisplayName(fn)) && !Configures(plugins, DisplayName(fn).value) ==> r == fn
  {
    var tag := DisplayName(fn);
    if IsTruthyTag(tag) then SelectValue(plugins, tag.value, fn) else fn
  }

  /** The two selections agree on every value whose tag is not the empty string. */
  lemma SelectPluginAgreesAsWritten(plugins: map<string, Val>, fn: Val)
    requires !IsNullish(fn)
    requires DisplayName(fn) != Some("")
    ensures SelectPluginAsWritten(plugins, fn) == SelectPlugin(plugins, fn)
  {
  }

  /**
   * A function whose display name is the empty string is handed on as the
   * string "" by the selection as written, and unchanged by the corrected one.
   */
  lemma EmptyTagRegistersEmptyString(plugins: map<string, Val>, id: nat)
    ensures SelectPluginAsWritten(plugins, Fn(id, Some(""))) == Str("")
    ensures SelectPlugin(plugins, Fn(id, Some(""))) == Fn(id, Some(""))
  {
  }

  /**
   * Plugin selection against the identity of the registration value: it is
   * replaced exactly when its identity is configured.
   */
  lemma SelectPluginByIdentity(plugins: map<string, Val>, v: Val)
    requires !IsNullish(v)
    ensures var id := Resolve(v);
      SelectPlugin(plugins, Unwrap(v)) ==
        if id.Named? && Configures(plugins, id.name) then plugins[id.name] else Unwrap(v)
  {
  }
}
