/** `shouldUpdate`: whether new props name a different module than the previous ones. */
module ChangeDetection {
  import opened Wrappers
  import opened JsValues
  import opened Configs

  /**
   * Whether new props name a different module. With a static config this is
   * a comparison of the one chunk-name field under two sets of props: the new
   * and previous props when async-only, else the construction-time props and
   * `prevProps`; without `prevProps` a sync-capable instance never reloads.
   * A dynamic config is recomputed for the previous props before comparing.
   */
  function ShouldUpdate(inst: Instance, next: Props, prev: Props): (b: bool)
    ensures !inst.options.isDynamic ==>
      var chunk := inst.CurrentConfig().chunkName;
      (b <==> if AsyncOnly(inst.CurrentConfig()) then Evaluate(chunk, next) != Evaluate(chunk, prev)
              else inst.prevProps.Some? && Evaluate(chunk, inst.props) != Evaluate(chunk, inst.prevProps.value))
    ensures !AsyncOnly(inst.CurrentConfig()) && inst.prevProps.None? ==> !b
    ensures inst.options.isDynamic && AsyncOnly(inst.CurrentConfig()) ==>
      (b <==> CacheKey(inst.CurrentConfig(), next) != CacheKey(inst.ConfigFor(prev), prev))
    ensures !AsyncOnly(inst.CurrentConfig()) && inst.prevProps.Some? ==>
      (b <==> CacheKey(inst.CurrentConfig(), inst.props)
              != CacheKey(inst.ConfigFor(inst.prevProps.value), inst.prevProps.value))
  {
    var config := inst.CurrentConfig();
    if AsyncOnly(config) then
      CacheKey(config, next) != CacheKey(inst.ConfigFor(prev), prev)
    else if inst.prevProps.None? then
      false
    else
      var before := inst.prevProps.value;
      CacheKey(config, inst.props) != CacheKey(inst.ConfigFor(before), before)
  }

  /**
   * Async-only, static config: reload exactly when the chunk name evaluates
   * differently under the new and the previous props.
   */
  lemma StaticAsyncOnlyComparesChunkNames(inst: Instance, next: Props, prev: Props)
    requires !inst.options.isDynamic && AsyncOnly(inst.CurrentConfig())
    ensures ShouldUpdate(inst, next, prev)
      <==> Evaluate(inst.CurrentConfig().chunkName, next) != Evaluate(inst.CurrentConfig().chunkName, prev)
    ensures !ShouldUpdate(inst, next, next)
  {
    StaticConfigIgnoresProps(inst.universalConfig, inst.options, inst.props, prev);
  }

  /**
   * A config with a path or resolve (set by the build-time plugin) ignores the
   * arguments of `shouldUpdate`: the answer is fixed by the construction-time
   * props and `prevProps`, and is false when no `prevProps` was given.
   */
  lemma SyncCapableIgnoresArguments(inst: Instance, n1: Props, p1: Props, n2: Props, p2: Props)
    requires !AsyncOnly(inst.CurrentConfig())
    ensures ShouldUpdate(inst, n1, p1) == ShouldUpdate(inst, n2, p2)
    ensures inst.prevProps.None? ==> !ShouldUpdate(inst, n1, p1)
  {
  }

  /**
   * Static, sync-capable config with `prevProps`: reload exactly when the chunk
   * name evaluates differently under the construction-time props and `prevProps`.
   */
  lemma StaticSyncCapableComparesConstructionProps(inst: Instance, next: Props, prev: Props)
    requires !inst.options.isDynamic && !AsyncOnly(inst.CurrentConfig()) && inst.prevProps.Some?
    ensures ShouldUpdate(inst, next, prev)
      <==> Evaluate(inst.CurrentConfig().chunkName, inst.props) != Evaluate(inst.CurrentConfig().chunkName, inst.prevProps.value)
  {
    StaticConfigIgnoresProps(inst.universalConfig, inst.options, inst.props, inst.prevProps.value);
  }

  /** The chunk name used in the example below: the `id` prop. */
  function ChunkById(p: Props): string {
    if "id" in p then p["id"] else ""
  }

  /**
   * An async-only config whose chunk name is the `id` prop reloads when `id`
   * changes and not when another prop does.
   */
  lemma ChunkByIdExample(uc: UniversalConfig, props: Props)
    ensures
      var options := Options(None, None, None, None, false, Missing, Derived(ChunkById), Missing, Missing);
      var inst := Instance(uc, options, props, None);
      && ShouldUpdate(inst, map["id" := "1"], map["id" := "2"])
      && !ShouldUpdate(inst, map["id" := "1", "x" := "5"], map["id" := "1", "x" := "6"])
  {
    var options := Options(None, None, None, None, false, Missing, Derived(ChunkById), Missing, Missing);
    var inst := Instance(uc, options, props, None);
    StaticAsyncOnlyComparesChunkNames(inst, map["id" := "1"], map["id" := "2"]);
    StaticAsyncOnlyComparesChunkNames(inst, map["id" := "1", "x" := "5"], map["id" := "1", "x" := "6"]);
  }
}
