/**
 * The process-wide state of the loader (the chunk-name and module-id sets,
 * the module registry and the onLoad bookkeeping) and the operations of a
 * `requireUniversalModule` instance that read or change it.
 */
module UniversalModule {
  import opened Wrappers
  import opened JsValues
  import opened OrderedSets
  import opened Configs
  import opened Settlement

  /**
   * The host, fixed when the module is loaded: `NODE_ENV === 'test'`,
   * whether `window` is defined, `isWebpack()`, the weak ids whose entry in
   * `__webpack_modules__` is truthy, and the helpers `tryRequire` and
   * `findExport`, whose bodies are not part of this model.
   */
  datatype Env = Env(
    isTest: bool,
    windowDefined: bool,
    webpack: bool,
    webpackModules: set<string>,
    tryRequire: string -> Value,
    findExport: (Value, Option<string>) -> Value)

  /** `typeof window === 'undefined' || IS_TEST`. */
  predicate IsServer(env: Env) {
    !env.windowDefined || env.isTest
  }

  /** `MODULES.get(key)`. */
  function Lookup(modules: map<Key, Value>, key: Key): Value {
    if key in modules then modules[key] else Undefined
  }

  /** What `requireSync` returns: nothing, or the export of the module it handed to `resolveExport`. */
  datatype SyncResult = Unavailable | Exported(mod: Value, exported: Value)

  /** An entry of the promise cache that `loadFromPromiseCache` can return. */
  datatype PromiseRef = PromiseRef(handle: nat)

  /**
   * What `requireAsync` returns: a promise already fulfilled from the
   * registry, the cached in-flight promise, or a fresh load in its first
   * state together with what its `resolve` and `reject` closures capture.
   */
  datatype AsyncResult =
    | AlreadyFulfilled(mod: Value, exported: Value)
    | CachedPromise(promise: PromiseRef)
    | Loading(state: LoadState, ctx: LoadContext)

  /** The chunk name `addModule` records, if any. */
  function RecordedChunkName(c: Config, env: Env, props: Props): (r: Option<string>)
    ensures r.Some? <==> IsServer(env) && SpecTruthy(c.chunkName) && TextTruthy(Evaluate(c.chunkName, props))
    ensures r.Some? ==> r.value != "" && Some(r.value) == Evaluate(c.chunkName, props)
  {
    if IsServer(env) && SpecTruthy(c.chunkName) && TextTruthy(Evaluate(c.chunkName, props)) then
      Evaluate(c.chunkName, props)
    else
      None
  }

  /** The field whose value `addModule` records as a module id: the weak id under webpack, else the path. */
  function ModuleIdField(c: Config, env: Env): StrSpec {
    if env.webpack then c.resolve else c.path
  }

  /** The module id `addModule` records, if any. */
  function RecordedModuleId(c: Config, env: Env, props: Props): (r: Option<string>)
    ensures r.Some? <==>
      && IsServer(env)
      && (env.isTest || !SpecTruthy(c.chunkName))
      && TextTruthy(Evaluate(ModuleIdField(c, env), props))
    ensures r.Some? ==> r.value != "" && Some(r.value) == Evaluate(ModuleIdField(c, env), props)
  {
    if IsServer(env) && (env.isTest || !SpecTruthy(c.chunkName)) && TextTruthy(Evaluate(ModuleIdField(c, env), props)) then
      Evaluate(ModuleIdField(c, env), props)
    else
      None
  }

  /** `if (x) set.add(x)`. */
  function Record(s: seq<string>, x: Option<string>): seq<string> {
    if x.Some? then Insert(s, x.value) else s
  }

  /** The weak id `requireSync` probes and `addModule` records under webpack. */
  function WeakId(c: Config, props: Props): string {
    OrEmpty(Evaluate(c.resolve, props))
  }

  /** The path `requireSync` tries outside webpack: `callForString(path, props) || ''`. */
  function ModulePath(c: Config, props: Props): string {
    OrEmpty(Evaluate(c.path, props))
  }

  /** Outside webpack with a path configured, `requireSync` tries the path. */
  predicate PathRoute(c: Config, env: Env) {
    !env.webpack && SpecTruthy(c.path)
  }

  /** Under webpack with a resolve configured, `requireSync` requires the weak id when it is resident. */
  predicate WeakIdRoute(c: Config, env: Env, props: Props) {
    env.webpack && SpecTruthy(c.resolve) && WeakId(c, props) in env.webpackModules
  }

  /**
   * The module `requireSync` ends up with: the registry's entry when it is
   * truthy, otherwise what the host yields through the route it allows,
   * otherwise the registry's (falsy) entry.
   */
  function SyncModule(modules: map<Key, Value>, c: Config, env: Env, props: Props): (m: Value)
    ensures Truthy(Lookup(modules, CacheKey(c, props))) ==> m == Lookup(modules, CacheKey(c, props))
    ensures !Truthy(Lookup(modules, CacheKey(c, props))) && PathRoute(c, env) ==> m == env.tryRequire(ModulePath(c, props))
    ensures !Truthy(Lookup(modules, CacheKey(c, props))) && WeakIdRoute(c, env, props) ==> m == env.tryRequire(WeakId(c, props))
    ensures !PathRoute(c, env) && !WeakIdRoute(c, env, props) ==> m == Lookup(modules, CacheKey(c, props))
    ensures Truthy(m) && !Truthy(Lookup(modules, CacheKey(c, props))) ==> PathRoute(c, env) || WeakIdRoute(c, env, props)
  {
    var hit := Lookup(modules, CacheKey(c, props));
    if Truthy(hit) then hit
    else if PathRoute(c, env) then env.tryRequire(ModulePath(c, props))
    else if WeakIdRoute(c, env, props) then env.tryRequire(WeakId(c, props))
    else hit
  }

  /** The context of the `resolve` and `reject` closures of a fresh load. */
  function LoadContextOf(inst: Instance, env: Env): LoadContext {
    LoadContext(inst.options.key, inst.options.onError.Some?, env.windowDefined, env.findExport)
  }

  class ModuleState {
    var chunkNames: seq<string>
    var moduleIds: seq<string>
    var modules: map<Key, Value>
    var onLoadCallbacks: map<Value, set<Fn>>

    /** Both sets hold each truthy string at most once. */
    ghost predicate Valid()
      reads this
    {
      && NoDuplicates(chunkNames) && "" !in chunkNames
      && NoDuplicates(moduleIds) && "" !in moduleIds
    }

    /** The state when the module is first loaded: everything empty. */
    constructor ()
      ensures Valid()
      ensures chunkNames == [] && moduleIds == [] && modules == map[] && onLoadCallbacks == map[]
    {
      chunkNames, moduleIds := [], [];
      modules, onLoadCallbacks := map[], map[];
    }

    method AddModule(inst: Instance, env: Env, props: Props)
      requires Valid()
      modifies this
      ensures Valid()
      ensures chunkNames == Record(old(chunkNames), RecordedChunkName(inst.CurrentConfig(), env, props))
      ensures moduleIds == Record(old(moduleIds), RecordedModuleId(inst.CurrentConfig(), env, props))
      ensures modules == old(modules) && onLoadCallbacks == old(onLoadCallbacks)
    {
      var config := inst.CurrentConfig();
      if IsServer(env) {
        if SpecTruthy(config.chunkName) {
          var name := Evaluate(config.chunkName, props);
          if TextTruthy(name) {
            chunkNames := Insert(chunkNames, name.value);
          }
          if !env.isTest {
            return;
          }
        }
        if env.webpack {
          var weakId := Evaluate(config.resolve, props);
          if TextTruthy(weakId) {
            moduleIds := Insert(moduleIds, weakId.value);
          }
        } else {
          var modulePath := Evaluate(config.path, props);
          if TextTruthy(modulePath) {
            moduleIds := Insert(moduleIds, modulePath.value);
          }
        }
      }
    }

    /** Drain the chunk names, in insertion order, and forget which onLoad callbacks ran. */
    method FlushChunkNames() returns (chunks: seq<string>)
      requires Valid()
      modifies this
      ensures Valid()
      ensures chunks == old(chunkNames) && NoDuplicates(chunks)
      ensures chunkNames == [] && onLoadCallbacks == map[]
      ensures moduleIds == old(moduleIds) && modules == old(modules)
    {
      chunks := chunkNames;
      chunkNames := [];
      onLoadCallbacks := map[];
    }

    /** Drain the module ids, in insertion order, and forget which onLoad callbacks ran. */
    method FlushModuleIds() returns (ids: seq<string>)
      requires Valid()
      modifies this
      ensures Valid()
      ensures ids == old(moduleIds) && NoDuplicates(ids)
      ensures moduleIds == [] && onLoadCallbacks == map[]
      ensures chunkNames == old(chunkNames) && modules == old(modules)
    {
      ids := moduleIds;
      moduleIds := [];
      onLoadCallbacks := map[];
    }

    /** Empty the module registry and nothing else. */
    method ClearModulesCache()
      requires Valid()
      modifies this
      ensures Valid()
      ensures modules == map[]
      ensures chunkNames == old(chunkNames) && moduleIds == old(moduleIds) && onLoadCallbacks == old(onLoadCallbacks)
    {
      modules := map[];
    }

    method RequireSync(inst: Instance, env: Env, props: Props) returns (r: SyncResult)
      ensures r.Unavailable? <==> !Truthy(SyncModule(modules, inst.CurrentConfig(), env, props))
      ensures r.Exported? ==>
        && r.mod == SyncModule(modules, inst.CurrentConfig(), env, props)
        && r.exported == env.findExport(r.mod, inst.options.key)
    {
      var config := inst.CurrentConfig();
      var mod := Lookup(modules, CacheKey(config, props));
      if !Truthy(mod) {
        if !env.webpack && SpecTruthy(config.path) {
          var modulePath := OrEmpty(Evaluate(config.path, props));
          mod := env.tryRequire(modulePath);
        } else if env.webpack && SpecTruthy(config.resolve) {
          var weakId := OrEmpty(Evaluate(config.resolve, props));
          if weakId in env.webpackModules {
            mod := env.tryRequire(weakId);
          }
        }
      }
      if !Truthy(mod) {
        return Unavailable;
      }
      r := Exported(mod, env.findExport(mod, inst.options.key));
    }

    /**
     * `cached` is what `loadFromPromiseCache` answers for this chunk name and
     * props; `requireAsync` asks it only on a registry miss.
     */
    method RequireAsync(inst: Instance, env: Env, props: Props, cached: Option<PromiseRef>) returns (r: AsyncResult)
      ensures
        var hit := Lookup(modules, CacheKey(inst.CurrentConfig(), props));
        && (Truthy(hit) ==> r == AlreadyFulfilled(hit, env.findExport(hit, inst.options.key)))
        && (!Truthy(hit) && cached.Some? ==> r == CachedPromise(cached.value))
        && (!Truthy(hit) && cached.None? ==> r == Loading(InitialLoad(inst.options.timeout), LoadContextOf(inst, env)))
      ensures r.Loading? ==>
        && r.ctx.exportKey == inst.options.key && (r.ctx.hasOnError <==> inst.options.onError.Some?)
        && r.state.promise.Pending? && r.state.onErrorCalls == [] && r.state.resolvedModules == []
        && (r.state.timerArmed <==> inst.options.timeout != Some(0))
    {
      var config := inst.CurrentConfig();
      var cachedMod := Lookup(modules, CacheKey(config, props));
      if Truthy(cachedMod) {
        return AlreadyFulfilled(cachedMod, env.findExport(cachedMod, inst.options.key));
      }
      if cached.Some? {
        return CachedPromise(cached.value);
      }
      r := Loading(InitialLoad(inst.options.timeout), LoadContextOf(inst, env));
    }
  }

  /** Off the server, `addModule` records nothing. */
  lemma OffServerRecordsNothing(c: Config, env: Env, props: Props)
    requires !IsServer(env)
    ensures RecordedChunkName(c, env, props).None? && RecordedModuleId(c, env, props).None?
  {
  }

  /** Outside test mode, a config with a chunk name never records a module id. */
  lemma ChunkNameSkipsModuleIds(c: Config, env: Env, props: Props)
    requires !env.isTest && SpecTruthy(c.chunkName)
    ensures RecordedModuleId(c, env, props).None?
  {
  }

  /** A registry hit is answered without looking at the host: any two hosts give the same module. */
  lemma RegistryHitIgnoresHost(modules: map<Key, Value>, c: Config, env1: Env, env2: Env, props: Props)
    requires Truthy(Lookup(modules, CacheKey(c, props)))
    ensures SyncModule(modules, c, env1, props) == SyncModule(modules, c, env2, props)
  {
  }

  /** Under webpack, a weak id missing from `__webpack_modules__` is never required. */
  lemma WebpackRequiresOnlyResidentIds(modules: map<Key, Value>, c: Config, env: Env, props: Props)
    requires env.webpack && WeakId(c, props) !in env.webpackModules
    ensures SyncModule(modules, c, env, props) == Lookup(modules, CacheKey(c, props))
  {
  }

  /** Recording "a" then "b" and flushing twice yields ["a", "b"] and then []. */
  method ServerPassExample(uc: UniversalConfig, env: Env)
    requires !env.windowDefined
  {
    var state := new ModuleState();
    var noOptions := Options(None, None, None, None, false, Missing, Missing, Missing, Missing);
    var a := Instance(uc, noOptions.(chunkName := Literal("a")), map[], None);
    var b := Instance(uc, noOptions.(chunkName := Literal("b")), map[], None);
    state.AddModule(a, env, map[]);
    state.AddModule(b, env, map[]);
    state.AddModule(a, env, map[]);
    var first := state.FlushChunkNames();
    assert first == ["a", "b"];
    var second := state.FlushChunkNames();
    assert second == [];
  }
}
