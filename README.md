# requireUniversalModule, modelled in Dafny

A model of the loading core of react-universal-component,
`src/requireUniversalModule.js`. One call of `requireUniversalModule(config,
options, props, prevProps)` normalises a static or dynamic config and returns
closures that load the module synchronously (`requireSync`) or
asynchronously (`requireAsync`), record what a server render touched
(`addModule`), and decide whether new props name a different module
(`shouldUpdate`). Module-level state holds the chunk names and module ids
recorded during a server pass, the module registry `MODULES` and the onLoad
bookkeeping `ON_LOAD_CALLBACKS`, drained by `flushChunkNames` /
`flushModuleIds` and reset by `clearModulesCache`.

Files:

- `wrappers.dfy`: `Option`.
- `js_values.dfy`: JavaScript values reduced to truthiness (`Value`), props,
  and the "literal string or function of props" field (`StrSpec`) with its one
  evaluation `Evaluate`, which stands for `callForString`.
- `ordered_sets.dfy`: a JavaScript `Set` of strings as a sequence without
  duplicates; `add`, and the proof that `Array.from` after a run of `add`
  calls gives each element once, in first-insertion order.
- `configs.dfy`: `getConfig`, the `asyncOnly` flag and the cache key.
- `change_detection.dfy`: `shouldUpdate`.
- `settlement.dfy`: the promise built by a fresh `requireAsync` load, as a
  state machine over the events `resolve(mod)`, `reject(err)` and timer expiry.
- `universal_module.dfy`: the module-level state as the class `ModuleState`,
  with `addModule`, the flushes, `clearModulesCache`, `requireSync` and
  `requireAsync`; the host (`NODE_ENV`, `window`, `isWebpack()`,
  `__webpack_modules__`, `tryRequire`, `findExport`) is the `Env` parameter.

## Model

| member | source | states |
|---|---|---|
| OrderedSets.Insert | src/requireUniversalModule.js:155 | `Set.add` keeps a set duplicate-free, keeps earlier members in place, contains the new element afterwards, and is a no-op on an element already present |
| OrderedSets.InsertAllAppendsFirstOccurrences | src/requireUniversalModule.js:201-202 | adding a run of names to a set appends exactly the first occurrences of the names not yet present, in their order |
| OrderedSets.ArrayFromInsertionOrder | src/requireUniversalModule.js:29-30 | a fresh set filled by a run of `add` calls lists each added element exactly once, in first-insertion order, and nothing else |
| Configs.GetConfig | src/requireUniversalModule.js:222-248 | dynamic: the factory's result for the props when the config is a function, else the config itself; static: `file` is 'default', `id`/`chunkName` default to 'default' and `resolve`/`path` to '' when the option is missing or empty, so chunk name and id are always truthy; `load` is the config function itself, or a loader returning the config value |
| Configs.StaticConfigIgnoresProps | src/requireUniversalModule.js:234-247 | a static config does not depend on the props it is normalised against |
| Configs.AsyncOnly | src/requireUniversalModule.js:51 | async-only exactly when neither `path` nor `resolve` is a function or a non-empty string |
| Configs.StaticAsyncOnly | src/requireUniversalModule.js:51 | in static mode the instance is async-only exactly when the options give no path and no resolve |
| ChangeDetection.ShouldUpdate | src/requireUniversalModule.js:170-190 | with a static config: when async-only, true exactly when the chunk name evaluates differently under `next` and `prev`; otherwise true exactly when `prevProps` was given and the chunk name evaluates differently under the construction-time props and `prevProps`; a sync-capable instance without `prevProps` never reloads; with a dynamic async-only config, true exactly when the construction-time chunk name under `next` differs from the chunk name of the config recomputed for `prev`; with any sync-capable config and `prevProps`, true exactly when the chunk name under the construction-time props differs from the chunk name of the config recomputed for `prevProps` under `prevProps` (the plugin-built case) |
| ChangeDetection.StaticAsyncOnlyComparesChunkNames | src/requireUniversalModule.js:171-178 | async-only with a static config: reload exactly when the chunk name evaluates differently under the new and previous props; never for equal props |
| ChangeDetection.SyncCapableIgnoresArguments | src/requireUniversalModule.js:180-190 | with a path or resolve, the answer does not depend on the arguments, and is false when no `prevProps` was given at construction |
| ChangeDetection.StaticSyncCapableComparesConstructionProps | src/requireUniversalModule.js:182-189 | with a static config and `prevProps`, reload exactly when the chunk name differs between the construction props and `prevProps` |
| ChangeDetection.ChunkByIdExample | src/requireUniversalModule.js:170-178 | with the chunk name taken from the `id` prop, `{id:1}` vs `{id:2}` reloads and `{id:1,x:5}` vs `{id:1,x:6}` does not |
| Settlement.InitialLoad | src/requireUniversalModule.js:42 | a fresh load starts pending with no reports; the timer is armed unless the timeout is 0, the default being 15000 |
| Settlement.Step | src/requireUniversalModule.js:105-145 | after any event the timer is cleared (resolve and reject clear it, an expiry spends it, a cleared timer never fires); a settled promise is unchanged; on a pending promise, reject rejects with its truthy reason or, for a missing or falsy one, with 'timeout exceeded', expiry with 'timeout exceeded', and resolve fulfils with the truthy export of the module or rejects with 'export not found'; every resolve hands its module to `resolveExport`; with an `onError` hook, a reject, an expiry of the armed timer and a resolve without a truthy export each append exactly one report carrying that path's error ('timeout exceeded' for expiry and a falsy reason, 'export not found' for a missing export, else the reason) and `isServer` equal to "no window"; a fulfilling resolve and an expiry of a cleared timer report nothing, and nothing is reported without the hook |
| Settlement.SettledIsFinal | src/requireUniversalModule.js:114 | once settled, no sequence of events changes the promise |
| Settlement.FirstSettlementWins | src/requireUniversalModule.js:105-145 | the outcome after a prefix of events that settles it is the outcome after any continuation |
| Settlement.RunKeepsConsistent | src/requireUniversalModule.js:106-137 | any run of events keeps "a settled promise has no armed timer" and "a fulfilled promise holds a truthy export" |
| Settlement.ClearedTimerStaysCleared | src/requireUniversalModule.js:108 | once the timer is cleared it is never armed again |
| Settlement.OnErrorLogOnlyGrows | src/requireUniversalModule.js:109-113 | reports to `onError` are only appended, and there are none without an `onError` hook |
| Settlement.LoadIsConsistent | src/requireUniversalModule.js:105-145 | from the start of any load, after any events, a settled promise has cleared its timer and a fulfilled one holds a truthy export |
| Settlement.OnErrorAfterTimeout | src/requireUniversalModule.js:106-118 | a loader rejecting after the timer fired makes `onError` report twice while the promise keeps the timeout error |
| UniversalModule.RecordedChunkName | src/requireUniversalModule.js:151-155 | a chunk name is recorded exactly on the server, with a truthy chunk-name field that evaluates to a non-empty string, and it is that string |
| UniversalModule.RecordedModuleId | src/requireUniversalModule.js:156-166 | a module id is recorded exactly on the server, when in test mode or without a chunk name, and the weak id (webpack) or path (otherwise) is non-empty; it is that string |
| UniversalModule.SyncModule | src/requireUniversalModule.js:54-68 | a truthy registry entry is used as is; on a miss, outside webpack with a path the result is `tryRequire` of the path, under webpack with a resolve whose weak id is present in `__webpack_modules__` it is `tryRequire` of the weak id, and with neither route it is the registry's entry; a truthy module after a miss came through one of the two routes |
| UniversalModule.ModuleState.constructor | src/requireUniversalModule.js:29-32 | the four collections start empty |
| UniversalModule.ModuleState.AddModule | src/requireUniversalModule.js:151-168 | adds the recorded chunk name and module id, if any, to their sets; leaves `MODULES` and `ON_LOAD_CALLBACKS` as they were; keeps both sets duplicate-free and free of empty strings |
| UniversalModule.ModuleState.FlushChunkNames | src/requireUniversalModule.js:201-207 | returns the recorded chunk names in insertion order without duplicates, empties them and `ON_LOAD_CALLBACKS`, leaves module ids and `MODULES` |
| UniversalModule.ModuleState.FlushModuleIds | src/requireUniversalModule.js:209-215 | returns the recorded module ids in insertion order without duplicates, empties them and `ON_LOAD_CALLBACKS`, leaves chunk names and `MODULES` |
| UniversalModule.ModuleState.ClearModulesCache | src/requireUniversalModule.js:218-220 | empties `MODULES` and changes nothing else |
| UniversalModule.ModuleState.RequireSync | src/requireUniversalModule.js:53-84 | returns nothing, without calling `resolveExport`, exactly when no truthy module results; otherwise that module and `findExport(mod, key)` |
| UniversalModule.ModuleState.RequireAsync | src/requireUniversalModule.js:86-149 | a truthy registry entry gives an already fulfilled promise of its export without the promise cache or `load`; else a cached promise is returned as is; else a fresh load starts pending with the timer armed unless the timeout is 0, its `resolve`/`reject` capturing the instance's export key and `onError` hook |
| UniversalModule.OffServerRecordsNothing | src/requireUniversalModule.js:152 | off the server `addModule` records nothing |
| UniversalModule.ChunkNameSkipsModuleIds | src/requireUniversalModule.js:153-157 | outside test mode a config with a chunk name records no module id |
| UniversalModule.RegistryHitIgnoresHost | src/requireUniversalModule.js:54-56 | on a registry hit the host is not consulted: any two hosts give the same module |
| UniversalModule.WebpackRequiresOnlyResidentIds | src/requireUniversalModule.js:61-66 | under webpack, a weak id absent from `__webpack_modules__` leaves only the registry's entry |

## Left out

- Promise scheduling, microtask order and real timer timing: settlement is a sequence of discrete events, and the host rule that a promise keeps its first settlement is built into `Settle`.
- A `load` that throws synchronously inside the promise executor (the host then rejects the promise without clearing the timer or calling `onError`), and an exception thrown by `resolveExport` inside `then`: the events are only resolve, reject and timer expiry.
- The bodies of `resolveExport`, `findExport`, `tryRequire`, `callForString`, `loadFromPromiseCache`, `cacheProm` and `isWebpack`, which live in `src/utils.js`; utils.js is not part of this model. `tryRequire`, `findExport` and `isWebpack()` are fields of `Env`; `callForString` is `Evaluate`; the answer of `loadFromPromiseCache` is the `cached` parameter of `RequireAsync`.
- UniversalModule.ModuleState.RequireSync: the writes `resolveExport` makes to `MODULES` and `ON_LOAD_CALLBACKS` are not applied to the state; the result names the module handed to it instead. First-write-wins registration, once-per-module `onLoad` and promise-cache keying are not claimed.
- UniversalModule.ModuleState.RequireAsync: the writes `resolveExport` makes to `MODULES` and `ON_LOAD_CALLBACKS` on a registry hit and in a fresh load's `resolve` are not applied either (the load records the modules handed to it in `resolvedModules`), so no operation of the model ever fills `modules`; storing the new promise with `cacheProm` and the call of `load` are not state of the model, and the `Loading` result stands for both.
- `onError` is an event log with no at-most-once guarantee; `onLoad` is not invoked by the model.
- Props hold strings only, and a function-valued field always yields a string; the `promCache` option is not modelled.
- A `null` or `NaN` timeout: the timeout is an optional integer, so only a missing one (default 15000) and 0 (no timer) are distinguished.
- The Flow type imports and declarations.
