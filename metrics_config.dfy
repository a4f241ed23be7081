/**
 * metrics/init.go: the metrics section of the configuration, its
 * validation, and the construction of the metrics client. The constructor
 * of a custom metrics client (metrics/custom.go) is not part of this model;
 * it is passed to `Freeze` as a function value.
 */
module MetricsConfig {
  import opened Common
  import opened Constants
  import Helpers
  import Decimal
  import SetCollection

  /** A metrics client: the implementation behind its three counters. */
  datatype Client = Client(increaseMetricAPI: Option<Handle>)

  /** A user-supplied metrics client. */
  datatype CustomConfig = CustomConfig(client: Option<Handle>)

  datatype Config = Config(metricsProvider: int, customConfiguration: Option<CustomConfig>)

  /** `supportedMetricsType`: the set of metrics providers, holding the custom one only. */
  method SupportedMetricsTypes() returns (s: SetCollection.Set<int>)
    ensures fresh(s)
    ensures s.items.Keys == {CustomMetricsType}
  {
    s := new SetCollection.Set<int>.New();
    s := s.Add(CustomMetricsType);
  }

  /**
   * `Config.Validate`: the custom provider needs its custom configuration,
   * and no other provider is accepted.
   */
  function Validate(c: Config): (err: Option<Error>)
    ensures err.None? <==> c.metricsProvider == CustomMetricsType && c.customConfiguration.Some?
    ensures c.metricsProvider == CustomMetricsType && c.customConfiguration.None? ==>
      err == Some(Error("custom metrics config is nil"))
    ensures c.metricsProvider != CustomMetricsType ==> err == Some(Error("metrics type is not supported"))
  {
    if c.metricsProvider == CustomMetricsType then
      if c.customConfiguration.None? then
        Helpers.TernaryOp(c.customConfiguration.None?, Some(Error("custom metrics config is nil")), None)
      else
        None
    else
      Some(Error("metrics type is not supported"))
  }

  /**
   * `Config.Freeze` on a possibly nil configuration; `newCustom` stands for
   * the custom metrics client constructor.
   */
  function Freeze(c: Option<Config>, newCustom: Option<CustomConfig> -> Result<Client>): (r: Result<Client>)
    ensures c.None? ==> r == Err(Error("config, is nil"))
    ensures c.Some? && c.value.metricsProvider == CustomMetricsType ==> r == newCustom(c.value.customConfiguration)
    ensures c.Some? && c.value.metricsProvider != CustomMetricsType ==>
      r == Err(Error("metric type " + Decimal.FormatInt(c.value.metricsProvider) + " is not supported"))
  {
    if c.None? then Err(Error("config, is nil"))
    else if c.value.metricsProvider == CustomMetricsType then newCustom(c.value.customConfiguration)
    else Err(Error("metric type " + Decimal.FormatInt(c.value.metricsProvider) + " is not supported"))
  }

  /** An unsupported provider is refused both by validation and by freezing. */
  lemma UnsupportedProviderRefused(c: Config, newCustom: Option<CustomConfig> -> Result<Client>)
    requires c.metricsProvider != CustomMetricsType
    ensures Validate(c).Some? && Freeze(Some(c), newCustom).Err?
  {
  }
}
