/** The feature switches of `internal/service/metric/config.go`: the default
    configuration and the legacy one, and how their values relate to the
    constants the executor and the enhanced gatherer use. */
module Config {
  import opened Base
  import Enhanced
  import Executor

  /** `EnhancedFeaturesConfig`. */
  datatype EnhancedFeaturesConfig = EnhancedFeaturesConfig(
    enabled: bool,
    enableCaching: bool,
    cacheSize: int,
    cacheTTL: int,
    enableRetry: bool,
    maxRetries: int,
    queryTimeout: int,
    maxConcurrentQueries: int)

  /** A switched-on feature has the settings it needs: a cache that can hold
      entries for some time, at least one retry, and a timeout the enhanced
      gatherer keeps as it is. */
  predicate Usable(cfg: EnhancedFeaturesConfig)
  {
    && (cfg.enableCaching ==> cfg.cacheSize > 0 && cfg.cacheTTL > 0)
    && (cfg.enableRetry ==> cfg.maxRetries > 0)
    && (cfg.enabled ==> Enhanced.ClampTimeout(cfg.queryTimeout) == cfg.queryTimeout && cfg.maxConcurrentQueries > 0)
  }

  /** `DefaultEnhancedFeaturesConfig`: every feature on, with the executor's
      own timeout and concurrency limit. */
  function DefaultEnhancedFeaturesConfig(): (cfg: EnhancedFeaturesConfig)
    ensures cfg.enabled && cfg.enableCaching && cfg.enableRetry && Usable(cfg)
    ensures cfg.cacheSize == 100 && cfg.cacheTTL == 30 * Second && cfg.maxRetries == 3
    ensures cfg.queryTimeout == Executor.DefaultTimeout && cfg.maxConcurrentQueries == Executor.MaxConcurrentCalls
    ensures cfg.maxRetries == Executor.MaxRetransmission
  {
    EnhancedFeaturesConfig(
      enabled := true,
      enableCaching := true,
      cacheSize := 100,
      cacheTTL := 30 * Second,
      enableRetry := true,
      maxRetries := 3,
      queryTimeout := 5 * Second,
      maxConcurrentQueries := 10)
  }

  /** `LegacyConfig`: every feature off and every number left at zero, so no
      explicit timeout and no concurrency limit. */
  function LegacyConfig(): (cfg: EnhancedFeaturesConfig)
    ensures !cfg.enabled && !cfg.enableCaching && !cfg.enableRetry && Usable(cfg)
    ensures cfg.cacheSize == 0 && cfg.cacheTTL == 0 && cfg.maxRetries == 0
    ensures cfg.queryTimeout == 0 && cfg.maxConcurrentQueries == 0
  {
    EnhancedFeaturesConfig(
      enabled := false,
      enableCaching := false,
      cacheSize := 0,
      cacheTTL := 0,
      enableRetry := false,
      maxRetries := 0,
      queryTimeout := 0,
      maxConcurrentQueries := 0)
  }

  /** The two configurations differ on each switch, and the legacy zero
      timeout becomes the enhanced gatherer's 5s default once clamped. */
  lemma DefaultAndLegacyDiffer()
    ensures DefaultEnhancedFeaturesConfig().enabled != LegacyConfig().enabled
    ensures DefaultEnhancedFeaturesConfig().enableCaching != LegacyConfig().enableCaching
    ensures DefaultEnhancedFeaturesConfig().enableRetry != LegacyConfig().enableRetry
    ensures Enhanced.ClampTimeout(LegacyConfig().queryTimeout) == DefaultEnhancedFeaturesConfig().queryTimeout
  {
  }
}
