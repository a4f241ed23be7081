/**
 * init.go: the user-facing configuration, its validation, and the one-time
 * initialisation that freezes it into the process-wide settings.
 */
module Setup {
  import opened Common
  import Constants
  import CacheConfig
  import MetricsConfig
  import Policy

  /** The configuration handed to `Init`; durations are in nanoseconds. */
  datatype Config = Config(
    defaultSoftTTL: int,
    defaultHardTTL: int,
    cacheConfig: CacheConfig.Config,
    enableMetricsEmission: bool,
    metricsConfig: Option<MetricsConfig.Config>,
    skipCache: bool,
    compressionLibrary: int,
    version: string)

  /** The library constructors `freeze` reaches through the cache and metrics sections. */
  datatype Constructors = Constructors(
    newRedis: Option<CacheConfig.RedisConfig> -> Result<CacheConfig.Client>,
    newMetrics: Option<MetricsConfig.CustomConfig> -> Result<MetricsConfig.Client>)

  /**
   * `Config.validate`: with the cache skipped everything is accepted;
   * otherwise the hard TTL must be set and not below the soft TTL, the
   * cache section must be valid, and the compression selector must lie in
   * 0..3. The metrics section is not looked at.
   */
  function Validate(c: Config): (err: Option<Error>)
    ensures c.skipCache ==> err.None?
    ensures !c.skipCache ==>
      (err.None? <==>
        c.defaultHardTTL != 0 && c.defaultSoftTTL <= c.defaultHardTTL &&
        CacheConfig.Validate(c.cacheConfig).None? &&
        0 <= c.compressionLibrary <= 3)
    ensures !c.skipCache && c.defaultHardTTL == 0 ==>
      err == Some(Error("hard ttl is not set, if you want to disable cache, set SkipCache to true"))
    ensures !c.skipCache && c.defaultHardTTL != 0 && c.defaultHardTTL < c.defaultSoftTTL ==>
      err == Some(Error("hard ttl is less than soft ttl, if you want to disable soft TTL behavior, set DefaultSoftTTL to HardTTL"))
    ensures (!c.skipCache && c.defaultHardTTL != 0 && c.defaultSoftTTL <= c.defaultHardTTL &&
             CacheConfig.Validate(c.cacheConfig).Some?) ==>
      err == CacheConfig.Validate(c.cacheConfig)
    ensures (!c.skipCache && c.defaultHardTTL != 0 && c.defaultSoftTTL <= c.defaultHardTTL &&
             CacheConfig.Validate(c.cacheConfig).None? && !(0 <= c.compressionLibrary <= 3)) ==>
      err == Some(Error("invalid compression library type specified."))
  {
    if c.skipCache then None
    else if c.defaultHardTTL == 0 then
      Some(Error("hard ttl is not set, if you want to disable cache, set SkipCache to true"))
    else if c.defaultHardTTL < c.defaultSoftTTL then
      Some(Error("hard ttl is less than soft ttl, if you want to disable soft TTL behavior, set DefaultSoftTTL to HardTTL"))
    else if CacheConfig.Validate(c.cacheConfig).Some? then
      CacheConfig.Validate(c.cacheConfig)
    else if c.compressionLibrary < 0 || c.compressionLibrary > 3 then
      Some(Error("invalid compression library type specified."))
    else
      None
  }

  /**
   * The settings `freeze` installs, or the error it stops at: validation,
   * then the cache client, then (only when emission is enabled and a
   * metrics section is present) the metrics client.
   */
  function Frozen(c: Config, k: Constructors): (r: Result<Policy.Settings>)
    ensures Validate(c).Some? ==> r == Err(Validate(c).value)
    ensures r.Ok? ==> Validate(c).None? && r.value.cacheProvider.Some?
    ensures r.Ok? ==> (r.value.metricsProvider.Some? <==> c.enableMetricsEmission && c.metricsConfig.Some?)
  {
    if Validate(c).Some? then Err(Validate(c).value)
    else
      match CacheConfig.Freeze(Some(c.cacheConfig), k.newRedis)
      case Err(e) => Err(e)
      case Ok(cacheProv) =>
        var metricsProv :=
          if c.enableMetricsEmission && c.metricsConfig.Some? then MetricsConfig.Freeze(c.metricsConfig, k.newMetrics)
          else Ok(MetricsConfig.Client(None));
        if metricsProv.Err? then Err(metricsProv.error)
        else
          Ok(Policy.Settings(
            c.defaultSoftTTL, c.defaultHardTTL, Some(cacheProv),
            if c.enableMetricsEmission && c.metricsConfig.Some? then Some(metricsProv.value) else None,
            c.skipCache, c.compressionLibrary, c.version))
  }

  /**
   * A successful freeze copies the scalar settings verbatim, always
   * installs a cache client, and installs a metrics client exactly when
   * emission is enabled and a metrics section is present; it happens only
   * for a configuration that validates.
   */
  lemma FrozenMirrorsConfig(c: Config, k: Constructors)
    requires Frozen(c, k).Ok?
    ensures var s := Frozen(c, k).value;
      Validate(c).None? &&
      s.defaultSoftTTL == c.defaultSoftTTL && s.defaultHardTTL == c.defaultHardTTL &&
      s.skipCache == c.skipCache && s.compressionLibrary == c.compressionLibrary &&
      s.version == c.version &&
      s.cacheProvider == Some(CacheConfig.Freeze(Some(c.cacheConfig), k.newRedis).value) &&
      (s.metricsProvider.Some? <==> c.enableMetricsEmission && c.metricsConfig.Some?)
  {
  }

  /**
   * A validation error is what `freeze` reports, before any client is
   * built; with metrics emission disabled the metrics section never makes
   * `freeze` fail.
   */
  lemma FrozenErrors(c: Config, k: Constructors)
    ensures Validate(c).Some? ==> Frozen(c, k) == Err(Validate(c).value)
    ensures Validate(c).None? && CacheConfig.Freeze(Some(c.cacheConfig), k.newRedis).Err? ==>
      Frozen(c, k) == Err(CacheConfig.Freeze(Some(c.cacheConfig), k.newRedis).error)
    ensures !c.enableMetricsEmission ==>
      (Frozen(c, k).Ok? <==> Validate(c).None? && CacheConfig.Freeze(Some(c.cacheConfig), k.newRedis).Ok?)
  {
  }

  /**
   * Skipping the cache does not skip building the cache client: a
   * configuration that skips the cache but names no supported cache
   * provider passes validation and still fails to freeze.
   */
  lemma SkippedCacheStillNeedsProvider(c: Config, k: Constructors)
    requires c.skipCache
    requires c.cacheConfig.cacheProvider != Constants.CustomCacheType
    requires c.cacheConfig.cacheProvider != Constants.RedisCacheType
    ensures Validate(c).None?
    ensures Frozen(c, k).Err?
  {
  }

  /**
   * `Config.freeze`: on success the seven settings are injected, in the
   * source's order; on failure no setting changes.
   */
  method Freeze(g: Policy.Globals, c: Config, k: Constructors) returns (err: Option<Error>)
    modifies g
    ensures Frozen(c, k).Ok? ==> err.None? && g.Current() == Frozen(c, k).value
    ensures Frozen(c, k).Err? ==> err == Some(Frozen(c, k).error) && g.Current() == old(g.Current())
  {
    var invalid := Validate(c);
    if invalid.Some? {
      return invalid;
    }
    var cacheProv := CacheConfig.Freeze(Some(c.cacheConfig), k.newRedis);
    if cacheProv.Err? {
      return Some(cacheProv.error);
    }
    var metricsProv: Option<MetricsConfig.Client> := None;
    if c.enableMetricsEmission && c.metricsConfig.Some? {
      var m := MetricsConfig.Freeze(c.metricsConfig, k.newMetrics);
      if m.Err? {
        return Some(m.error);
      }
      metricsProv := Some(m.value);
    }
    g.InjectSoftTTL(c.defaultSoftTTL);
    g.InjectHardTTL(c.defaultHardTTL);
    g.InjectCacheProvider(Some(cacheProv.value));
    g.InjectMetricsProvider(metricsProv);
    g.InjectSkipCache(c.skipCache);
    g.InjectCompressionLibrary(c.compressionLibrary);
    g.InjectVersion(c.version);
    err := None;
  }

  /** The `sync.Once` guarding `Init`: whether its function has already run. */
  class Once {
    var done: bool

    constructor ()
      ensures !done
    {
      done := false;
    }
  }

  /**
   * `Init`: the first call freezes the configuration and reports its
   * error; every later call does nothing and reports no error.
   */
  method Init(once: Once, g: Policy.Globals, cfg: Config, k: Constructors) returns (err: Option<Error>)
    modifies once, g
    ensures once.done
    ensures old(once.done) ==> err.None? && g.Current() == old(g.Current())
    ensures !old(once.done) && Frozen(cfg, k).Ok? ==> err.None? && g.Current() == Frozen(cfg, k).value
    ensures !old(once.done) && Frozen(cfg, k).Err? ==>
      err == Some(Frozen(cfg, k).error) && g.Current() == old(g.Current())
  {
    err := None;
    if !once.done {
      once.done := true;
      err := Freeze(g, cfg, k);
    }
  }
}
