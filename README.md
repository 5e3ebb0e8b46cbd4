# graphql-resolvers helpers, modelled in Dafny

A model of the resolver helpers in `src/index.ts` of fjedi/graphql-resolvers. The helpers are:

- `removeUndefinedValues`: copies a plain object without its `undefined`-valued properties. A `null` value is kept.
- `fieldResolver`: builds a leaf resolver. The resolver returns the value found on the parent, and falls back to a default resolver only when that value is `undefined`.
- `updateInstanceById` and `destroyInstanceById`: build mutation resolvers. Each loads an instance without the cache, rejects with status 404 when it is missing, and writes inside one database transaction. The update resolver also runs optional hooks.

Files:

- `wrappers.dfy`: `Option` and `Result`.
- `objects.dfy` (module `Objects`): JavaScript values, and plain objects as key/value lists.
  - `Entries` is a list of properties in property order (the order `Object.keys` lists them), with no key repeated.
  - `Get` reads a property and gives `Undefined` for a missing key, as JavaScript does.
  - `ObjectKeys` is `Object.keys`.
- `remove_undefined.dfy` (module `RemoveUndefined`): `removeUndefinedValues`.
  - The method `RemoveUndefinedValues` keeps the source's loop over the keys.
  - It is proved equal to the filter function `DefinedEntries`.
  - Lemmas give the exact key set, the values, the kept `null`s and idempotence.
- `field_resolver.dfy` (module `FieldResolvers`): the resolver that `fieldResolver(defaultResolver, p)` returns, applied to its four arguments. It is modelled as one pure function.
- `mutations.dfy` (module `Mutations`): the update and destroy resolvers.
  - The database helpers (`dbInstanceById`, the `instanceof` model check, `instance.update`, `instance.destroy`) are opaque collaborators. So are the three hooks. Each is a function value, and each hook is an `Option`.
  - Every awaited call made by a resolver appends an `Event` to a trace: `Load`, `Preprocess`, `Before`, `BeginTx`, `Inside`, `Update`, `Destroy`, `EndTx`.
  - The methods `UpdateInstanceById` and `DestroyInstanceById` build the trace step by step. They are proved equal to the stage-by-stage specifications `UpdateRun` and `DestroyRun`.
  - Lemmas about those specifications state what runs, in what order, and what never runs on each path.

A hook, `instance.update` or `instance.destroy` can resolve (`Returned`) or throw (`Threw`). A thrown error is passed on as `Rethrown`. The resolvers' own error is `DefaultError("No entry with such id found", 404)`.

Two asymmetries of the code are kept:

- The destroy resolver does not check the model of the loaded instance. Only the update resolver rejects an instance of another model with 404.
- `beforeTransaction` and `insideTransaction` receive the original `args`, not the output of `preprocessInputData`.

Some functions have no row of their own in the table below, because they are stages of a member that has one:

- `FieldResolvers.ParentValue` (src/index.ts:33-37) is the parent-derived value. It is a stage of `FieldResolvers.FieldResolver` and is described by `GetterSeesOnlyRoot` and `FieldReadOffParent`.
- `Mutations.ApplyRun` (src/index.ts:112-117), `Mutations.UpdateSetRun` (src/index.ts:119-123), `Mutations.WriteRun` (src/index.ts:125-137) and `Mutations.TransactionRun` (src/index.ts:129-137) are stages of `Mutations.UpdateRun`. `UpdateRun` chains them in that order. Their properties are stated through the `UpdateRun` rows and the update path lemmas.

## Model

| member | source | states |
|---|---|---|
| `Objects.ObjectKeys` | src/index.ts:7 | `Object.keys` lists every own key of the object exactly once and no other key, in the object's property order |
| `Objects.Get` | src/index.ts:8-9 | reading a key the object does not have gives `undefined` |
| `RemoveUndefined.DefinedEntries` | src/index.ts:5-13 | the filtered object is a valid object (no repeated key), has no `undefined` value, and has no key the input lacks |
| `RemoveUndefined.RemoveUndefinedValues` | src/index.ts:5-13 | the loop over `Object.keys` builds exactly the filtered object. Its keys are the input keys whose value is not `undefined`, and every key reads the same value from the result as from the input |
| `RemoveUndefined.DefinedEntriesKeys` | src/index.ts:7-10 | the result's key set is exactly the input keys whose value is not `undefined` |
| `RemoveUndefined.DefinedEntriesGet` | src/index.ts:8-9 | for every key, the result holds the input's original value (or neither has it) |
| `RemoveUndefined.NullKeysRetained` | src/index.ts:8 | a key whose value is `null` stays in the result, with `null` |
| `RemoveUndefined.AllDefinedUnchanged` | src/index.ts:6-12 | an object without `undefined` values comes back identical, order included |
| `RemoveUndefined.DefinedEntriesIdempotent` | src/index.ts:6-12 | filtering a filtered object changes nothing |
| `RemoveUndefined.FilterExample` | test/index.spec.ts:3-15 | the test's object loses only `undefinedField`; `nullishField` stays |
| `FieldResolvers.ReadField` | src/index.ts:37 | `rootValue?.[fieldName]` is `undefined` on a nullish parent or a missing field, else the field's value |
| `FieldResolvers.FieldResolver` | src/index.ts:21-45 | a parent-derived value other than `undefined` is the result; an `undefined` one gives exactly `defaultResolver(rootValue, args, context, info)`. So the result is `undefined` only if the default resolver's result is |
| `FieldResolvers.ParentValueWins` | src/index.ts:39-41 | a parent-derived value other than `undefined` is returned, and two different default resolvers give the same result, so the default is not used |
| `FieldResolvers.NullFieldIsReturned` | src/index.ts:37-40 | a `null` field on the parent is returned as `null`, not defaulted |
| `FieldResolvers.UndefinedDelegatesToDefault` | src/index.ts:39-43 | an `undefined` parent-derived value yields exactly `defaultResolver(rootValue, args, context, info)` |
| `FieldResolvers.GetterSeesOnlyRoot` | src/index.ts:33-35 | a supplied `getDataFromParent` gives the value from `rootValue` alone, whatever the field name |
| `FieldResolvers.FieldReadOffParent` | src/index.ts:33-37 | without `getDataFromParent`, the value is the parent's property named by `info.fieldName`, or `undefined` on a nullish parent |
| `Mutations.UpdateRun` | src/index.ts:104-139 | the first step is a lookup of `(modelName, args.id)` with `'no-cache'`. A success returns the loaded instance. The resolver raises its own 404 exactly when the lookup found nothing or an instance of another model |
| `Mutations.UpdateInstanceById` | src/index.ts:93-140 | the step-by-step resolver settles with the result and the trace the update specification gives |
| `Mutations.UpdateTraceWellFormed` | src/index.ts:112-139 | on every path, each step runs at most once and in stage order. An opened transaction is always closed, and every `insideTransaction` and update runs inside it. The hooks receive the original `args`. The update set is never empty, and nothing is destroyed |
| `Mutations.UpdateNotFound` | src/index.ts:104-110 | a missing or foreign instance rejects with 404 after the lookup alone: no preprocess, hook, transaction or update |
| `Mutations.UpdateEmptySetShortCircuits` | src/index.ts:114-123 | an update set that is empty after filtering returns the loaded instance. Only the lookup and the optional preprocess ran: no `beforeTransaction`, transaction, `insideTransaction` or update |
| `Mutations.UpdateFullPath` | src/index.ts:112-139 | when every step resolves, the steps are: lookup, preprocess (if present), `beforeTransaction` (if present), then one transaction holding `insideTransaction` (if present) and one update with the filtered input. The loaded instance is returned |
| `Mutations.UpdateBeforeThrows` | src/index.ts:125-127 | a throwing `beforeTransaction` rejects with its error, and no transaction is opened |
| `Mutations.UpdateInsideThrows` | src/index.ts:129-137 | a throwing `insideTransaction` rejects with its error. The transaction is left without any update |
| `Mutations.UpdatePreprocessThrows` | src/index.ts:114-117 | a throwing `preprocessInputData` rejects with its error after the lookup and the preprocess alone: no `beforeTransaction`, transaction, `insideTransaction` or update |
| `Mutations.UpdateWriteThrows` | src/index.ts:129-137 | a throwing `instance.update` is not swallowed: the update rejects with its error, and the trace ends with the update and the end of the transaction |
| `Mutations.DestroyRun` | src/index.ts:155-170 | the first step is a `'no-cache'` lookup. Steps are in order and the transaction is bracketed. No hook runs. A success returns the loaded instance. The resolver raises its own 404 exactly when the lookup found nothing |
| `Mutations.DestroyInstanceById` | src/index.ts:144-171 | the step-by-step resolver settles with the result and the trace the destroy specification gives |
| `Mutations.DestroyNotFound` | src/index.ts:159-161 | a missing instance rejects with 404 after the lookup alone, and no transaction is opened |
| `Mutations.DestroyFoundInstance` | src/index.ts:155-170 | a found instance of any model is destroyed exactly once, inside exactly one transaction. The loaded instance is returned unless `destroy` threw, in which case its error is returned |

## Left out

- `resolveInstanceById` (src/index.ts:48-68): it passes its arguments to the library's `dbInstanceById` and has no logic of its own.
- The library behind `context.db`: `dbInstanceById`, `wrapInTransaction`, `instance.update`/`destroy` and the model classes are opaque functions. Commit and rollback are the library's business. `EndTx` only records that control left `wrapInTransaction`, whether the body completed or threw.
- A lookup that throws, and a `wrapInTransaction` that fails on its own (at open or commit). The lookup always answers `Some` or `None`.
- Promises and async scheduling: each `await` is one sequential step. Default resolvers that return a promise are modelled by the value they resolve to.
- Errors thrown in `fieldResolver`, by the default resolver or by `getDataFromParent(rootValue)`: the pure function model has both as total functions returning a value, so it does not show an error leaving `resolve`.
- The `context` object and GraphQL's resolve info beyond `fieldName`. Hooks receive `args` and the instance, and their closures stand in for `context`. The transaction handle given to `insideTransaction` and `update` is represented by the events lying between `BeginTx` and `EndTx`.
- A `preprocessInputData` result without an `input` field. In the source `Object.keys(undefined)` would then throw. In the model the result always has an `input`.
- The `options || {}` and `p || {}` defaults: an absent options object is the same as all hooks absent, and is written that way.
- JavaScript values: numbers are integers (no floating point). Nested objects are opaque references. A parent value for `fieldResolver` is nullish or a plain object, so properties of primitive parents (such as a string's `length`) are not modelled.
- Object semantics: only own enumerable string keys are modelled. Inherited properties and the special `__proto__` key are not.
- Property order: the model does not derive an object's property order from its insertion history. JavaScript lists integer-like keys first, in ascending order, and the other keys after them in insertion order. The model takes the entries in the order `Object.keys` reports them. Copying the defined entries in that order yields a result whose property order is again that order, so the model's statements hold under this reading.
- Shared objects passed to hooks: in the source, `preprocessInputData`, `beforeTransaction` and `insideTransaction` all receive the same `args` object and the same `instance` object. A hook may change them in place, for example `args.input`, before a later hook or `instance.update` sees them. The model passes values, so `Before(args)` and `Inside(args)` carry the contents of `args` as the resolver received it, and in-place changes by an earlier hook are not modelled.
- Error identity: errors are tagged by where they come from. A collaborator's error is always `Rethrown(reason)` and never equals the resolver's own `DefaultError(_, 404)`. In the source, a hook, `instance.update` or `instance.destroy` may throw its own 404 `DefaultError`, and it passes through unchanged, so the caller can see a 404 even though the instance was found. The 404 statements of `UpdateRun` and `DestroyRun` are about the resolver's own 404 only.
- RemoveUndefinedValues: "builds a fresh object and leaves its input unchanged" holds because Dafny sequences are values. Aliasing of JavaScript objects is not modelled.
