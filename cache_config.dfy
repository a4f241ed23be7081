/**
 * cache/init.go and cache/custom.go: the cache section of the
 * configuration, its validation, and the construction ("freezing") of the
 * cache client it describes. Building a Redis client is library code; it is
 * passed to `Freeze` as a function value.
 */
module CacheConfig {
  import opened Common
  import opened Constants
  import Helpers
  import Decimal

  /** A cache client: the implementations behind its Get and Set calls. */
  datatype Client = Client(getAPI: Option<Handle>, setAPI: Option<Handle>)

  /** A user-supplied cache client implementing both Get and Set. */
  datatype CustomConfig = CustomConfig(client: Option<Handle>)

  /** The connection settings for a Redis server or cluster. */
  datatype RedisConfig = RedisConfig(serverType: int, options: Handle)

  datatype Config = Config(
    cacheProvider: int,
    customConfiguration: Option<CustomConfig>,
    redisConfiguration: Option<RedisConfig>)

  /**
   * `Config.Validate`: a custom provider needs its custom configuration, a
   * Redis provider its Redis configuration, and no other provider is
   * accepted.
   */
  function Validate(c: Config): (err: Option<Error>)
    ensures err.None? <==>
      (c.cacheProvider == CustomCacheType && c.customConfiguration.Some?) ||
      (c.cacheProvider == RedisCacheType && c.redisConfiguration.Some?)
    ensures c.cacheProvider == CustomCacheType && c.customConfiguration.None? ==>
      err == Some(Error("custom cache config is nil"))
    ensures c.cacheProvider == RedisCacheType && c.redisConfiguration.None? ==>
      err == Some(Error("redis configuration is nil"))
    ensures c.cacheProvider != CustomCacheType && c.cacheProvider != RedisCacheType ==>
      err == Some(Error("cache type is not supported"))
  {
    if c.cacheProvider == CustomCacheType then
      if c.customConfiguration.None? then
        Helpers.TernaryOp(c.customConfiguration.None?, Some(Error("custom cache config is nil")), None)
      else
        None
    else if c.cacheProvider == RedisCacheType then
      Helpers.TernaryOp(c.redisConfiguration.None?, Some(Error("redis configuration is nil")), None)
    else
      Some(Error("cache type is not supported"))
  }

  /**
   * `newCustom`: a custom configuration yields a client whose Get and Set
   * both go to the configured implementation (even a nil one); only a nil
   * configuration is refused.
   */
  function NewCustom(cfg: Option<CustomConfig>): (r: Result<Client>)
    ensures r.Ok? <==> cfg.Some?
    ensures cfg.None? ==> r == Err(Error("nil ptr passed in for custom cache config"))
    ensures r.Ok? ==> r.value.getAPI == cfg.value.client && r.value.setAPI == cfg.value.client
  {
    if cfg.None? then Err(Error("nil ptr passed in for custom cache config"))
    else Ok(Client(cfg.value.client, cfg.value.client))
  }

  /**
   * `Config.Freeze` on a possibly nil configuration; `newRedis` stands for
   * the Redis client constructor.
   */
  function Freeze(c: Option<Config>, newRedis: Option<RedisConfig> -> Result<Client>): (r: Result<Client>)
    ensures c.None? ==> r == Err(Error("config, is nil"))
    ensures c.Some? && c.value.cacheProvider == CustomCacheType ==> r == NewCustom(c.value.customConfiguration)
    ensures c.Some? && c.value.cacheProvider == RedisCacheType ==> r == newRedis(c.value.redisConfiguration)
    ensures c.Some? && c.value.cacheProvider != CustomCacheType && c.value.cacheProvider != RedisCacheType ==>
      r == Err(Error("cache type " + Decimal.FormatInt(c.value.cacheProvider) + " is not supported"))
  {
    if c.None? then Err(Error("config, is nil"))
    else if c.value.cacheProvider == CustomCacheType then NewCustom(c.value.customConfiguration)
    else if c.value.cacheProvider == RedisCacheType then newRedis(c.value.redisConfiguration)
    else Err(Error("cache type " + Decimal.FormatInt(c.value.cacheProvider) + " is not supported"))
  }

  /**
   * Freezing a custom configuration fails exactly when validating it does,
   * and an unsupported provider is refused by both.
   */
  lemma FreezeAgreesWithValidate(c: Config, newRedis: Option<RedisConfig> -> Result<Client>)
    ensures c.cacheProvider == CustomCacheType ==>
      (Freeze(Some(c), newRedis).Err? <==> Validate(c).Some?)
    ensures c.cacheProvider != CustomCacheType && c.cacheProvider != RedisCacheType ==>
      Freeze(Some(c), newRedis).Err? && Validate(c).Some?
  {
  }
}
