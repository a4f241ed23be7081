/**
 * consts.go: the process-wide settings every call of the orchestrator
 * reads, and their setters. The seven package variables are the fields of
 * one `Globals` object; `Settings` is a snapshot of them.
 */
module Policy {
  import opened Common
  import CacheConfig
  import MetricsConfig

  /** The seven settings; durations are in nanoseconds. */
  datatype Settings = Settings(
    defaultSoftTTL: int,
    defaultHardTTL: int,
    cacheProvider: Option<CacheConfig.Client>,
    metricsProvider: Option<MetricsConfig.Client>,
    skipCache: bool,
    compressionLibrary: int,
    version: string)

  class Globals {
    var defaultSoftTTL: int
    var defaultHardTTL: int
    var cacheProvider: Option<CacheConfig.Client>
    var metricsProvider: Option<MetricsConfig.Client>
    var skipCache: bool
    var compressionLibrary: int
    var version: string

    function Current(): (s: Settings)
      reads this
    {
      Settings(defaultSoftTTL, defaultHardTTL, cacheProvider, metricsProvider,
               skipCache, compressionLibrary, version)
    }

    /** The package variables before any setter has run: Go's zero values. */
    constructor ()
      ensures Current() == Settings(0, 0, None, None, false, 0, "")
    {
      defaultSoftTTL, defaultHardTTL := 0, 0;
      cacheProvider, metricsProvider := None, None;
      skipCache, compressionLibrary, version := false, 0, "";
    }

    method InjectCacheProvider(c: Option<CacheConfig.Client>)
      modifies this
      ensures Current() == old(Current()).(cacheProvider := c)
    {
      cacheProvider := c;
    }

    method InjectMetricsProvider(m: Option<MetricsConfig.Client>)
      modifies this
      ensures Current() == old(Current()).(metricsProvider := m)
    {
      metricsProvider := m;
    }

    method InjectSkipCache(b: bool)
      modifies this
      ensures Current() == old(Current()).(skipCache := b)
    {
      skipCache := b;
    }

    method InjectSoftTTL(softTTL: int)
      modifies this
      ensures Current() == old(Current()).(defaultSoftTTL := softTTL)
    {
      defaultSoftTTL := softTTL;
    }

    method InjectHardTTL(hardTTL: int)
      modifies this
      ensures Current() == old(Current()).(defaultHardTTL := hardTTL)
    {
      defaultHardTTL := hardTTL;
    }

    method InjectCompressionLibrary(t: int)
      modifies this
      ensures Current() == old(Current()).(compressionLibrary := t)
    {
      compressionLibrary := t;
    }

    method InjectVersion(v: string)
      modifies this
      ensures Current() == old(Current()).(version := v)
    {
      version := v;
    }
  }
}
