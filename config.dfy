/**
 * The shape of one configured metric (Go's `config.Metric`) and of the
 * Prometheus descriptor built from it. Configuration loading and validation
 * are not part of this model; only the fields the core reads are kept.
 */
module Config {

  /** The Prometheus value type a metric is exported with. */
  datatype ValueType = Gauge | Counter | Untyped

  /**
   * A configured metric. `topicLabels` holds the label-name to topic-index
   * pairs in the order `TopicLabels.KeysInOrder()` yields them; `jsonField`
   * empty means the payload is a single scalar; `expiration` is a duration in
   * the same unit as the store's clock.
   */
  datatype Metric = Metric(
    prometheusName: string,
    baseName: string,
    mqttTopic: string,
    topicLabels: seq<(string, int)>,
    jsonField: seq<string>,
    expiration: int,
    fakeTS: bool,
    valueType: ValueType)

  /** Go's `config.Metric{}`, returned when a lookup finds nothing. */
  const ZERO_METRIC := Metric("", "", "", [], [], 0, false, Untyped)

  /**
   * A Prometheus descriptor: the metric's name and its variable label names,
   * which fix how many label values a sample must carry.
   */
  datatype Desc = Desc(fqName: string, variableLabels: seq<string>)

  /** The names of a metric's topic labels, in configuration order. */
  function LabelNames(topicLabels: seq<(string, int)>): (names: seq<string>)
    ensures |names| == |topicLabels|
    ensures forall k :: 0 <= k < |topicLabels| ==> names[k] == topicLabels[k].0
  {
    seq(|topicLabels|, k requires 0 <= k < |topicLabels| => topicLabels[k].0)
  }

  /**
   * `metric.PrometheusDescription()`: named after the metric's current
   * `prometheusName`, with a "topic" label followed by one label per topic label.
   */
  function Description(metric: Metric): (d: Desc)
    ensures d.fqName == metric.prometheusName
    ensures |d.variableLabels| == 1 + |metric.topicLabels|
  {
    Desc(metric.prometheusName, ["topic"] + LabelNames(metric.topicLabels))
  }
}
