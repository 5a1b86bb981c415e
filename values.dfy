/**
 * The JavaScript values the interception layer inspects: plugin functions,
 * module-namespace objects, thenables, options, handlers and decorator
 * values, reduced to the properties the layer reads.
 */
module JsValues {
  import opened Wrappers

  /**
   * A JavaScript value. Functions and objects carry an identity (`id`, for
   * reference equality) and the value of their `Symbol.for('fastify.display-name')`
   * property (`tag`, `None` when undefined). An object also records its `then`
   * and `default` properties (`thenMember`, `defaultMember`), the only other ones the layer reads.
   */
  datatype Val =
    | Undefined
    | Null
    | Num(n: int)
    | Str(s: string)
    | Fn(id: nat, tag: Option<string>)
    | Obj(id: nat, tag: Option<string>, thenMember: Option<Val>, defaultMember: Option<Val>)

  /** `v === null || v === undefined`: the values `??` falls back on. */
  predicate IsNullish(v: Val) {
    v.Undefined? || v.Null?
  }

  /** `a ?? b`. */
  function Coalesce(a: Val, b: Val): (r: Val)
    ensures !IsNullish(a) ==> r == a
    ensures IsNullish(a) ==> r == b
  {
    if IsNullish(a) then b else a
  }

  /** `typeof v === 'function'`. */
  predicate IsFunction(v: Val) {
    v.Fn?
  }

  /** Whether the property read `p` (a `then` or `default` member) yields a function. */
  predicate HoldsFunction(p: Option<Val>) {
    p.Some? && IsFunction(p.value)
  }

  /**
   * avvio's is-promise-like test: not null, of type `'object'` (so not a
   * function or a primitive), and with a function `then` member.
   */
  predicate IsPromiseLike(v: Val): (r: bool)
    ensures r ==> !IsNullish(v) && !IsFunction(v)
    ensures v.Obj? ==> (r <==> HoldsFunction(v.thenMember))
    ensures !v.Obj? ==> !r
  {
    v.Obj? && HoldsFunction(v.thenMember)
  }

  /**
   * avvio's is-bundled-or-typescript-plugin test: not null, of type
   * `'object'`, and with a function `default` member.
   */
  predicate IsBundledOrTypescriptPlugin(v: Val): (r: bool)
    ensures r ==> !IsNullish(v) && !IsFunction(v)
    ensures v.Obj? ==> (r <==> HoldsFunction(v.defaultMember))
    ensures !v.Obj? ==> !r
  {
    v.Obj? && HoldsFunction(v.defaultMember)
  }

  /**
   * The value the register wrapper goes on with: the default export of a
   * module-namespace object, otherwise the value itself.
   */
  function Unwrap(v: Val): (r: Val)
    ensures !IsBundledOrTypescriptPlugin(r)
    ensures IsNullish(r) <==> IsNullish(v)
    ensures IsBundledOrTypescriptPlugin(v) ==> r == v.defaultMember.value && IsFunction(r)
    ensures !IsBundledOrTypescriptPlugin(v) ==> r == v
  {
    if IsBundledOrTypescriptPlugin(v) then v.defaultMember.value else v
  }

  /**
   * `v[kFastifyDisplayName]` as a string, `None` when undefined. Reading a
   * property of null or undefined throws, hence the precondition; primitives
   * carry no such property.
   */
  function DisplayName(v: Val): (r: Option<string>)
    requires !IsNullish(v)
    ensures r.Some? ==> v.Fn? || v.Obj?
  {
    match v
    case Fn(_, tag) => tag
    case Obj(_, tag, _, _) => tag
    case _ => None
  }

  /** Whether a display-name tag is truthy: defined and not the empty string. */
  predicate IsTruthyTag(tag: Option<string>) {
    tag.Some? && tag.value != ""
  }

  /** The stable name used for plugin matching, or none. */
  datatype Identity = Named(name: string) | NoIdentity

  /**
   * The identity of a registration value: the truthy display name of the
   * value after module-namespace unwrapping.
   */
  function Resolve(v: Val): (id: Identity)
    requires !IsNullish(v)
    ensures id.NoIdentity? <==> !IsTruthyTag(DisplayName(Unwrap(v)))
    ensures id.Named? ==> DisplayName(Unwrap(v)) == Some(id.name) && id.name != ""
    ensures (id.Named? && !IsBundledOrTypescriptPlugin(v)) ==> DisplayName(v) == Some(id.name)
    ensures (id.Named? && IsBundledOrTypescriptPlugin(v)) ==> v.defaultMember.value.tag == Some(id.name)
  {
    var tag := DisplayName(Unwrap(v));
    if IsTruthyTag(tag) then Named(tag.value) else NoIdentity
  }

  /**
   * A thenable that carries neither a display name nor a default export, as a
   * pending `import()` does, has no identity.
   */
  lemma PlainThenableHasNoIdentity(v: Val)
    requires IsPromiseLike(v) && v.tag.None? && !HoldsFunction(v.defaultMember)
    ensures Resolve(v) == NoIdentity
  {
  }
}
