/**
 * Config normalisation (`getConfig`) and the per-instance view of the
 * config that `requireUniversalModule` closes over.
 */
module Configs {
  import opened Wrappers
  import opened JsValues

  /** The default for the `id`, `chunkName` and `file` of a static config. */
  const DefaultName := "default"

  /** A config's `load`: the user's function, or a loader that returns a constant. */
  datatype Load = CallUser(fn: Fn) | ReturnConstant(value: Value)

  datatype Config = Config(
    file: StrSpec,
    id: StrSpec,
    chunkName: StrSpec,
    resolve: StrSpec,
    path: StrSpec,
    load: Load)

  /**
   * The first argument of `requireUniversalModule`: a function, or any other
   * value. In dynamic mode a function is a factory from props to a config and
   * another value is read as the config itself (`fields`); in static mode the
   * function is the loader and another value is what the loader returns.
   */
  datatype UniversalConfig =
    | ConfigFunction(fn: Fn, factory: Props -> Config)
    | ConfigValue(value: Value, fields: Config)

  /** The options the core reads; the promise-cache store is not modelled. */
  datatype Options = Options(
    key: Option<string>,
    timeout: Option<int>,
    onLoad: Option<Fn>,
    onError: Option<Fn>,
    isDynamic: bool,
    id: StrSpec,
    chunkName: StrSpec,
    resolve: StrSpec,
    path: StrSpec)

  /** `given || fallback` on a config field. */
  function OrDefault(given: StrSpec, fallback: string): StrSpec {
    if SpecTruthy(given) then given else Literal(fallback)
  }

  /** A truthy option is kept; a missing or empty one is replaced by `fallback`. */
  ghost predicate Defaulted(field: StrSpec, given: StrSpec, fallback: string) {
    if SpecTruthy(given) then field == given else field == Literal(fallback)
  }

  function GetConfig(isDynamic: bool, uc: UniversalConfig, options: Options, props: Props): (c: Config)
    ensures isDynamic && uc.ConfigFunction? ==> c == uc.factory(props)
    ensures isDynamic && uc.ConfigValue? ==> c == uc.fields
    ensures !isDynamic ==>
      && c.file == Literal(DefaultName)
      && Defaulted(c.id, options.id, DefaultName)
      && Defaulted(c.chunkName, options.chunkName, DefaultName)
      && Defaulted(c.resolve, options.resolve, "")
      && Defaulted(c.path, options.path, "")
    ensures !isDynamic ==> SpecTruthy(c.chunkName) && SpecTruthy(c.id)
    ensures !isDynamic ==> (c.load.CallUser? <==> uc.ConfigFunction?)
    ensures !isDynamic && uc.ConfigFunction? ==> c.load.fn == uc.fn
    ensures !isDynamic && uc.ConfigValue? ==> c.load.value == uc.value
  {
    if isDynamic then
      match uc
      case ConfigFunction(_, factory) => factory(props)
      case ConfigValue(_, fields) => fields
    else
      var load := match uc
        case ConfigFunction(fn, _) => CallUser(fn)
        case ConfigValue(value, _) => ReturnConstant(value);
      Config(
        file := Literal(DefaultName),
        id := OrDefault(options.id, DefaultName),
        chunkName := OrDefault(options.chunkName, DefaultName),
        resolve := OrDefault(options.resolve, ""),
        path := OrDefault(options.path, ""),
        load := load)
  }

  /** A static config is fixed at construction: props do not enter it. */
  lemma StaticConfigIgnoresProps(uc: UniversalConfig, options: Options, p1: Props, p2: Props)
    ensures GetConfig(false, uc, options, p1) == GetConfig(false, uc, options, p2)
  {
  }

  /** `!path && !resolve`: true exactly when neither field is given as a function or a non-empty string. */
  function AsyncOnly(c: Config): (b: bool)
    ensures b <==> (c.path.Missing? || c.path == Literal("")) && (c.resolve.Missing? || c.resolve == Literal(""))
  {
    !SpecTruthy(c.path) && !SpecTruthy(c.resolve)
  }

  /** In static mode the config is async-only exactly when the options give neither path nor resolve. */
  lemma StaticAsyncOnly(uc: UniversalConfig, options: Options, props: Props)
    ensures AsyncOnly(GetConfig(false, uc, options, props)) <==> !SpecTruthy(options.path) && !SpecTruthy(options.resolve)
  {
  }

  /** The registry key of a config under some props: its evaluated chunk name. */
  function CacheKey(c: Config, props: Props): Key {
    Evaluate(c.chunkName, props)
  }

  /** One call of `requireUniversalModule`: the arguments its returned closures capture. */
  datatype Instance = Instance(
    universalConfig: UniversalConfig,
    options: Options,
    props: Props,
    prevProps: Option<Props>)
  {
    /** The config normalised against the construction-time props. */
    function CurrentConfig(): Config {
      GetConfig(options.isDynamic, universalConfig, options, props)
    }

    /** The config normalised against other props, as `shouldUpdate` recomputes it. */
    function ConfigFor(other: Props): Config {
      GetConfig(options.isDynamic, universalConfig, options, other)
    }
  }
}
