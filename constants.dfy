/** The enumerations of the configuration surface, with the values the source assigns them. */
module Constants {

  /** Cache providers (`CacheType`, counted from one). */
  const CustomCacheType: int := 1
  const RedisCacheType: int := 2

  /** Compression selectors (`CompressionLibraryType`, counted from zero). */
  const NoCompressionType: int := 0
  const GzipCompressionType: int := 1
  const SnappyCompressionType: int := 2

  /** Metrics providers (`MetricsType`, counted from one). */
  const CustomMetricsType: int := 1
}
