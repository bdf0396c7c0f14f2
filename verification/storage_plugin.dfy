/**
 Option assembly, engine selection and key namespacing of the storage plugin
 (packages/storage-plugin/src/internals.ts).
 */
module StoragePlugin {
  import opened Wrappers
  import opened StorageKeys

  /**
   The state of one property of a JavaScript options object: not an own
   property at all, an own property holding `undefined`, or an own property
   holding a value. Object spread copies the last two and skips the first.
   */
  datatype Prop<T> = Missing | Undef | Has(value: T)

  /** A state value as the serialization hooks see it. */
  type Value(!new)

  /** The `StorageOption` enum, plus any value outside it that a caller may pass. */
  datatype StorageOption = LocalStorage | SessionStorage | OtherStorage

  /** `serialize`: the default `JSON.stringify`, or a user function. */
  datatype Serializer = JsonStringify | CustomSerializer(encode: Value -> string)

  /** `deserialize`: the default `JSON.parse`, or a user function. */
  datatype Deserializer = JsonParse | CustomDeserializer(decode: string -> Value)

  /** The storage engines the plugin can pick: the browser's `localStorage` or `sessionStorage`. */
  datatype Engine = LocalEngine | SessionEngine

  /** `NgxsStoragePluginOptions`: the fields the plugin reads or fills in. */
  datatype Options = Options(
    key: Prop<StorageKey>,
    namespace: Prop<string>,
    storage: Prop<StorageOption>,
    serialize: Prop<Serializer>,
    deserialize: Prop<Deserializer>,
    beforeSerialize: Prop<Value -> Value>,
    afterDeserialize: Prop<Value -> Value>)

  /** The root key used when no namespace is configured. */
  const FallbackStateKey: string := "@@STATE"

  /** The default `beforeSerialize`/`afterDeserialize` hook, `obj => obj`. */
  function Identity(v: Value): Value { v }

  /** JavaScript truthiness of an optional string. */
  predicate Truthy(s: Option<string>) {
    s.Some? && s.value != ""
  }

  /** JavaScript truthiness of the `key` property: only `undefined` and `''` are falsy. */
  predicate KeyTruthy(p: Prop<StorageKey>) {
    p.Has? && p.value != Single(Str(""))
  }

  /** The value of `DEFAULT_STATE_KEY`: `(options && options.namespace) || '@@STATE'`. */
  function DefaultStateKey(options: Option<Options>): (r: string)
    ensures r != ""
    ensures options.Some? && options.value.namespace.Has? && options.value.namespace.value != ""
            ==> r == options.value.namespace.value
    ensures !(options.Some? && options.value.namespace.Has? && options.value.namespace.value != "")
            ==> r == FallbackStateKey
  {
    match options
    case None => FallbackStateKey
    case Some(o) =>
      match o.namespace
      case Has(ns) => if ns != "" then ns else FallbackStateKey
      case _ => FallbackStateKey
  }

  /** The object literal of defaults that user options are spread over. */
  function Defaults(defaultStateKey: string): Options {
    Options(
      key := Has(Many([Str(defaultStateKey)])),
      namespace := Missing,
      storage := Has(LocalStorage),
      serialize := Has(JsonStringify),
      deserialize := Has(JsonParse),
      beforeSerialize := Has(Identity),
      afterDeserialize := Has(Identity))
  }

  /** One property of `{...base, ...over}`. */
  function SpreadProp<T>(base: Prop<T>, over: Prop<T>): Prop<T> {
    if over.Missing? then base else over
  }

  /** `{...base, ...over}` on options objects. */
  function Spread(base: Options, over: Options): Options {
    Options(
      key := SpreadProp(base.key, over.key),
      namespace := SpreadProp(base.namespace, over.namespace),
      storage := SpreadProp(base.storage, over.storage),
      serialize := SpreadProp(base.serialize, over.serialize),
      deserialize := SpreadProp(base.deserialize, over.deserialize),
      beforeSerialize := SpreadProp(base.beforeSerialize, over.beforeSerialize),
      afterDeserialize := SpreadProp(base.afterDeserialize, over.afterDeserialize))
  }

  /**
   The user options after the in-place rewrite `options.key = transformKeyOption(options.key)`,
   which happens only for a truthy `key`.
   */
  function RewriteKey(o: Options): (r: Options)
    ensures KeyTruthy(o.key) ==> r.key == Has(FromNames(TransformKeyOption(o.key.value)))
    ensures !KeyTruthy(o.key) ==> r.key == o.key
    ensures r.(key := o.key) == o
  {
    if KeyTruthy(o.key) then o.(key := Has(FromNames(TransformKeyOption(o.key.value)))) else o
  }

  /** `storageOptionsFactory`: the effective plugin options. */
  function StorageOptionsFactory(options: Option<Options>, defaultStateKey: string): (r: Options)
    // Without user options every field takes its default.
    ensures options.None? ==> r.key == Has(Many([Str(defaultStateKey)]))
    ensures options.None? ==> r.storage == Has(LocalStorage)
    ensures options.None? ==> r.serialize == Has(JsonStringify) && r.deserialize == Has(JsonParse)
    ensures options.None? ==> r.beforeSerialize.Has? && r.afterDeserialize.Has?
    ensures options.None? ==> forall v :: r.beforeSerialize.value(v) == v
    ensures options.None? ==> forall v :: r.afterDeserialize.value(v) == v
    ensures options.None? ==> r.namespace.Missing?
    // A truthy key is replaced by the list of names it resolves to.
    ensures options.Some? && KeyTruthy(options.value.key)
            ==> r.key == Has(FromNames(TransformKeyOption(options.value.key.value)))
    // Any other own property, key included, wholly replaces the default.
    ensures options.Some? && !KeyTruthy(options.value.key) && !options.value.key.Missing?
            ==> r.key == options.value.key
    ensures options.Some? && !options.value.storage.Missing? ==> r.storage == options.value.storage
    ensures options.Some? && !options.value.namespace.Missing? ==> r.namespace == options.value.namespace
    ensures options.Some? && !options.value.serialize.Missing? ==> r.serialize == options.value.serialize
    ensures options.Some? && !options.value.deserialize.Missing? ==> r.deserialize == options.value.deserialize
    ensures options.Some? && !options.value.beforeSerialize.Missing?
            ==> r.beforeSerialize == options.value.beforeSerialize
    ensures options.Some? && !options.value.afterDeserialize.Missing?
            ==> r.afterDeserialize == options.value.afterDeserialize
    // An absent property keeps the default.
    ensures options.Some? ==> (options.value.key.Missing? ==> r.key == Has(Many([Str(defaultStateKey)])))
    ensures options.Some? ==> (options.value.storage.Missing? ==> r.storage == Has(LocalStorage))
    ensures options.Some? ==> (options.value.namespace.Missing? ==> r.namespace.Missing?)
    ensures options.Some? ==> (options.value.serialize.Missing? ==> r.serialize == Has(JsonStringify))
    ensures options.Some? ==> (options.value.deserialize.Missing? ==> r.deserialize == Has(JsonParse))
    ensures options.Some? ==> (options.value.beforeSerialize.Missing? ==> r.beforeSerialize == Has(Identity))
    ensures options.Some? ==> (options.value.afterDeserialize.Missing? ==> r.afterDeserialize == Has(Identity))
  {
    match options
    case None => Defaults(defaultStateKey)
    case Some(o) => Spread(Defaults(defaultStateKey), RewriteKey(o))
  }

  /** `engineFactory`: the storage engine for the given platform and options; `None` is `null`. */
  function EngineFactory(options: Options, isServer: bool): (r: Option<Engine>)
    ensures isServer ==> r == None
    ensures !isServer ==> (r == Some(LocalEngine) <==> options.storage == Has(LocalStorage))
    ensures !isServer ==> (r == Some(SessionEngine) <==> options.storage == Has(SessionStorage))
    ensures r.Some? <==> !isServer && options.storage in {Has(LocalStorage), Has(SessionStorage)}
  {
    if isServer then None
    else if options.storage == Has(LocalStorage) then Some(LocalEngine)
    else if options.storage == Has(SessionStorage) then Some(SessionEngine)
    else None
  }

  /** `getNamespacedKey`: the key actually used in storage for a resolved state name. */
  function GetNamespacedKey(isMaster: bool, key: string, namespace: Option<string>): (r: string)
    ensures isMaster ==> r == key
    ensures !isMaster && Truthy(namespace) ==> r == namespace.value + ":" + key
    ensures !isMaster && !Truthy(namespace) ==> r == key
    ensures r == key <==> isMaster || !Truthy(namespace)
    ensures |key| <= |r| && r[|r| - |key|..] == key
  {
    if isMaster then key
    else if Truthy(namespace) then namespace.value + ":" + key
    else key
  }

  /**
   Recovers the state name from a key stored under a non-empty namespace, the
   inverse of `GetNamespacedKey` for non-master keys.
   */
  function StripNamespace(namespace: string, stored: string): (r: Option<string>)
    ensures r.Some? ==> stored == namespace + ":" + r.value
  {
    var prefix := namespace + ":";
    if |prefix| <= |stored| && stored[..|prefix|] == prefix then Some(stored[|prefix|..]) else None
  }

  /** Namespacing a non-master key is undone by stripping the namespace. */
  lemma StripNamespaceRoundTrip(key: string, namespace: string)
    requires namespace != ""
    ensures StripNamespace(namespace, GetNamespacedKey(false, key, Some(namespace))) == Some(key)
  {
  }

  /** Distinct state names never collide in storage under the same flag and namespace. */
  lemma NamespacedKeyInjective(isMaster: bool, k1: string, k2: string, namespace: Option<string>)
    requires GetNamespacedKey(isMaster, k1, namespace) == GetNamespacedKey(isMaster, k2, namespace)
    ensures k1 == k2
  {
  }

  /** Without user options, a browser gets `localStorage`. */
  lemma DefaultClientEngineIsLocal(defaultStateKey: string)
    ensures EngineFactory(StorageOptionsFactory(None, defaultStateKey), false) == Some(LocalEngine)
  {
  }

  /** A key specifier in the user options reaches the effective options as its resolved names. */
  lemma FactoryResolvesKey(o: Options, defaultStateKey: string, k: StorageKey)
    requires o.key == Has(k) && k != Single(Str(""))
    ensures StorageOptionsFactory(Some(o), defaultStateKey).key == Has(FromNames(TransformKeyOption(k)))
    ensures TransformKeyOption(StorageOptionsFactory(Some(o), defaultStateKey).key.value) == TransformKeyOption(k)
  {
  }

  /** Running the factory on its own output changes nothing. */
  lemma FactoryIdempotent(options: Option<Options>, defaultStateKey: string)
    ensures var r := StorageOptionsFactory(options, defaultStateKey);
            StorageOptionsFactory(Some(r), defaultStateKey) == r
  {
    var r := StorageOptionsFactory(options, defaultStateKey);
    if KeyTruthy(r.key) {
      ResolvedNamesAreFixed(TransformKeyOption(r.key.value));
      match options
      case None =>
        assert TransformKeyOption(r.key.value) == [defaultStateKey];
        assert FromNames([defaultStateKey]) == Many([Str(defaultStateKey)]);
      case Some(o) =>
        if KeyTruthy(o.key) {
          ResolvedNamesAreFixed(TransformKeyOption(o.key.value));
        } else {
          assert o.key.Missing?;
          assert TransformKeyOption(r.key.value) == [defaultStateKey];
          assert FromNames([defaultStateKey]) == Many([Str(defaultStateKey)]);
        }
    }
  }
}
