# Storage-plugin key logic and unhandled-action watchdog, in Dafny

This project models two small, independent pieces of an application-state
container's code base and proves properties of them.

1. **Storage plugin options and keys** (`packages/storage-plugin/src/internals.ts`).
   The user's `key` option can be a string, a state class, a `StateToken`, or a
   one-level array of these. `transformKeyOption` resolves it into a list of
   state names. `storageOptionsFactory` spreads the user options over the
   defaults. `engineFactory` picks `localStorage`, `sessionStorage` or `null`.
   `getNamespacedKey` prefixes non-master keys with the namespace.
   `DEFAULT_STATE_KEY` falls back to `'@@STATE'` when no namespace is set.
   These live in modules `StorageKeys` (`storage_keys.dfy`) and `StoragePlugin`
   (`storage_plugin.dfy`).
2. **Unhandled-action watchdog** (`UnhandledActionsLogger`). It keeps a set of
   ignored action types, seeded with `InitState.type` and `UpdateState.type`.
   `warnIfNeeded` emits one warning for any action whose type is not in that set.
   This is module `UnhandledActions` (`unhandled_actions.dfy`).

Modelling choices:
- A JavaScript options object's property has three states, captured by
  `Prop<T> = Missing | Undef | Has(value)`. Object spread skips only `Missing`.
  So an explicit `storage: undefined` does override the default, as in the code.
- `Value` is an abstract type standing for state values. `JSON.stringify` and
  `JSON.parse` are the tags `JsonStringify` and `JsonParse`.
- `isPlatformServer(platformId)` is the boolean `isServer`.
- The storage engines are the tags `LocalEngine` and `SessionEngine`, and `null` is `None`.
- The JavaScript `Set` of ignored types is a duplicate-free `seq<string>` kept in
  insertion order. `Set.add` is `SetAdd`, and the `Array.from(...).some(...)`
  scan is the loop in `SomeEquals`.
- `console.warn` appends the message to the logger's `warnings`.
- `getActionTypeFromInstance` is the function parameter `typeOf`, because its
  definition (`packages/store/src/utils/utils.ts`) is not part of this model.
- The logger is the value type `Logger`, not a class. `Ignore` and `Warn` are its
  transitions, and the methods `IgnoreActions` and `WarnIfNeeded` implement them
  as loops. `Run` replays a sequence of calls.
- `InitState.type` and `UpdateState.type` are `'@@INIT'` and `'@@UPDATE_STATE'`.
  Their defining file (`packages/store/src/actions/actions.ts`) is not part of
  this model. The logger's proofs rely on the two values differing. The scenario
  lemma `IgnoredFooReportedBar` also relies on neither being `"Bar"`.

Behaviour of the source that the model keeps:
- `transformKeyOption` casts every element that is not a `StateToken` to a string
  without checking it (internals.ts:50). The model's element type admits only
  strings, state classes and tokens, so the model has no error path.
- A state name may be empty, e.g. `Many([Str("")])` resolves to `[""]`.
  A key of `''` is falsy, so `storageOptionsFactory` does not resolve it
  (internals.ts:58). The spread copies it into the result unchanged: a string, not a list.
- The warning prefers `action.constructor.name`, unless there is no constructor or
  its name is `'Object'`. Only then does it use `action.type`
  (unhandled-actions-logger.ts:34-37).
- `warnIfNeeded(action)` has one parameter (unhandled-actions-logger.ts:25).
  It warns whenever the action's type is not ignored.

## Model

| member | source | states |
|---|---|---|
| `StorageKeys.ResolveElem` | packages/storage-plugin/src/internals.ts:45-50 | a string resolves to itself, a token to its `getName()`, a state class to its metadata name, itself resolved through `getName()` when that name is a token |
| `StorageKeys.ResolveAll` | packages/storage-plugin/src/internals.ts:42-51 | mapping over an array keeps its length and resolves position `i` from element `i` |
| `StorageKeys.TransformKeyOption` | packages/storage-plugin/src/internals.ts:37-52 | a non-array yields a one-element list; an array yields a list of the same length and order, element by element |
| `StorageKeys.SingleIsOneElementArray` | packages/storage-plugin/src/internals.ts:38-40 | a non-array specifier resolves exactly like the one-element array holding it |
| `StorageKeys.TransformConcat` | packages/storage-plugin/src/internals.ts:42-51 | resolving the concatenation of two arrays gives the concatenation of their resolutions (arrays are resolved per element) |
| `StorageKeys.StateClassResolvesAsItsName` | packages/storage-plugin/src/internals.ts:45-50 | a state class resolves as if its metadata name (string or token) were given directly |
| `StorageKeys.ResolvedNamesAreFixed` | packages/storage-plugin/src/internals.ts:37-52 | resolving an already resolved list of names returns the same list |
| `StoragePlugin.DefaultStateKey` | packages/storage-plugin/src/internals.ts:13-19 | the default state key is the namespace when it is a non-empty string, otherwise `'@@STATE'`; it is never empty |
| `StorageKeys.FromNames` | packages/storage-plugin/src/internals.ts:59 | the `string[]` written back into `options.key` is an array of plain strings, one per name, in the same order |
| `StoragePlugin.RewriteKey` | packages/storage-plugin/src/internals.ts:58-60 | the in-place rewrite replaces a truthy `key` with its resolved names and touches nothing else |
| `StoragePlugin.StorageOptionsFactory` | packages/storage-plugin/src/internals.ts:54-71 | with no options: key `[defaultStateKey]`, local storage, JSON codec, identity hooks; with options: every own property wholly replaces its default, a truthy key arrives resolved, absent properties keep the default |
| `StoragePlugin.EngineFactory` | packages/storage-plugin/src/internals.ts:73-88 | on the server always `null`; on the client `LocalStorage` gives the local engine and `SessionStorage` the session engine, each if and only if; anything else gives `null` |
| `StoragePlugin.GetNamespacedKey` | packages/storage-plugin/src/internals.ts:90-102 | a master key is unchanged for every namespace; a non-master key becomes `ns + ":" + key` for a non-empty `ns`, else stays unchanged; the key is always a suffix of the result |
| `StoragePlugin.StripNamespace` | packages/storage-plugin/src/internals.ts:97-98 | a recovered name, prefixed with the namespace and `:`, gives back the stored key |
| `StoragePlugin.StripNamespaceRoundTrip` | packages/storage-plugin/src/internals.ts:97-98 | stripping the namespace from a namespaced non-master key returns the original key |
| `StoragePlugin.NamespacedKeyInjective` | packages/storage-plugin/src/internals.ts:90-102 | distinct state names never share a storage key under the same master flag and namespace |
| `StoragePlugin.DefaultClientEngineIsLocal` | packages/storage-plugin/src/internals.ts:62-87 | with no user options, a browser gets the local storage engine |
| `StoragePlugin.FactoryResolvesKey` | packages/storage-plugin/src/internals.ts:58-70 | a truthy user key reaches the effective options as the list of names it resolves to |
| `StoragePlugin.FactoryIdempotent` | packages/storage-plugin/src/internals.ts:54-71 | applying the factory to its own output changes nothing |
| `UnhandledActions.SetAdd` | packages/store/src/unhandled-actions-logger/unhandled-actions-logger.ts:20 | adding a type keeps the set duplicate-free, adds exactly that type, keeps existing entries in place, and is a no-op for a present type |
| `UnhandledActions.AddAll` | packages/store/src/unhandled-actions-logger/unhandled-actions-logger.ts:18-22 | adding a list of action types yields the old set together with their `type`s, duplicate-free, old entries first |
| `UnhandledActions.NewLogger` | packages/store/src/unhandled-actions-logger/unhandled-actions-logger.ts:13 | the initial ignored set holds exactly `InitState.type` and `UpdateState.type`, and nothing has been warned |
| `UnhandledActions.Ignore` | packages/store/src/unhandled-actions-logger/unhandled-actions-logger.ts:18-22 | after `ignoreActions(a1..an)` the set is the old set plus `{a1.type..an.type}`, no entry removed; warnings untouched |
| `UnhandledActions.IgnoreActions` | packages/store/src/unhandled-actions-logger/unhandled-actions-logger.ts:18-22 | the `for` loop of `Set.add` calls computes the `Ignore` transition |
| `UnhandledActions.IgnorePresentIsNoOp` | packages/store/src/unhandled-actions-logger/unhandled-actions-logger.ts:18-22 | re-adding types already present leaves the set unchanged |
| `UnhandledActions.IgnoreIdempotent` | packages/store/src/unhandled-actions-logger/unhandled-actions-logger.ts:18-22 | calling `ignoreActions` twice with the same actions equals calling it once |
| `UnhandledActions.ReportedName` | packages/store/src/unhandled-actions-logger/unhandled-actions-logger.ts:34-37 | the warning names `constructor.name` when a constructor exists and is not `'Object'`, otherwise `action.type` (`"undefined"` when absent) |
| `UnhandledActions.NameInWarning` | packages/store/src/unhandled-actions-logger/unhandled-actions-logger.ts:39-41 | a name read back from a message rebuilds that exact message |
| `UnhandledActions.WarningNamesAction` | packages/store/src/unhandled-actions-logger/unhandled-actions-logger.ts:39-41 | the warning text determines the reported name uniquely |
| `UnhandledActions.Warn` | packages/store/src/unhandled-actions-logger/unhandled-actions-logger.ts:25-42 | the ignored set never changes; no warning if and only if the type is ignored; otherwise exactly one warning naming the reported name |
| `UnhandledActions.SomeEquals` | packages/store/src/unhandled-actions-logger/unhandled-actions-logger.ts:26-28 | the early-exit scan finds the type if and only if it is in the set |
| `UnhandledActions.WarnIfNeeded` | packages/store/src/unhandled-actions-logger/unhandled-actions-logger.ts:25-42 | the method (scan, early return, warning) computes the `Warn` transition |
| `UnhandledActions.RunIgnored` | packages/store/src/unhandled-actions-logger/unhandled-actions-logger.ts:13-42 | over any sequence of calls the ignored set is exactly the initial set plus every registered type, never loses or reorders an entry, and stays duplicate-free |
| `UnhandledActions.RunWarningsBounded` | packages/store/src/unhandled-actions-logger/unhandled-actions-logger.ts:18-42 | over any sequence of calls, warnings only grow, and by at most one per `warnIfNeeded` call |
| `UnhandledActions.LifecycleActionsSilent` | packages/store/src/unhandled-actions-logger/unhandled-actions-logger.ts:13-32 | a fresh logger emits nothing for `InitState` or `UpdateState` actions |
| `UnhandledActions.RegisteredStaysSilent` | packages/store/src/unhandled-actions-logger/unhandled-actions-logger.ts:18-32 | once a type has been registered, later calls never warn about it |
| `UnhandledActions.IgnoredFooReportedBar` | packages/store/src/unhandled-actions-logger/unhandled-actions-logger.ts:18-41 | after ignoring `Foo`, a `Foo` action is silent and a plain `{type: 'Bar'}` object yields exactly one warning naming `Bar` |

## Left out

- The `ignoreActions` helper function guarded by `ɵivyEnabled` (unhandled-actions-logger.ts lines 64-69) is left out. It is dependency-injection wiring that forwards to the logger's method.
- The `InjectionToken`/`inject` plumbing around `DEFAULT_STATE_KEY` and `@Injectable` is left out. Only the fallback expression is modelled.
- `isPlatformServer` is a framework call. It is the boolean `isServer`.
- The real `localStorage`/`sessionStorage` objects are browser host APIs. They are engine tags, and their get/set behaviour is not modelled.
- `JSON.stringify`/`JSON.parse` are foreign. No serialize/deserialize round trip is claimed.
- `getActionTypeFromInstance` is taken as a parameter. Its definition is not part of this model.
- The persistence read/write pipeline (master key choice, per-key reads and writes, migrations) is not in the modelled file.
- Options fields this code neither reads nor defaults, such as `migrations`, are not modelled. They are copied by the spread like any other property.
- `options === null` would throw in `storageOptionsFactory` on reading `options.key`. The model's options are either undefined (`None`) or an object.
- Key elements other than strings, state classes and tokens are outside the model's types. A `null` or `undefined` element throws a TypeError at `token.hasOwnProperty` (internals.ts:45), before the cast. Numbers and plain objects pass through the cast at line 50 unchanged, and so does a nested array. That is how arrays are resolved only one level deep (lines 38-42), which `KeyElem` cannot express.
- The `Action` datatype keeps only the constructor name and `type` that the warning text reads. So `typeOf` must give the same type to two actions that agree on those two fields. The real `getActionTypeFromInstance` may read other parts of the action. No proved property depends on this.
- The state classes' other metadata is not modelled. A state class is reduced to the metadata `name` this code reads.
- The in-place mutation of the caller's `options.key` is modelled as the value `RewriteKey` returns, not as a heap update.
