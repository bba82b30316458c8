/**
 * The handler and the collector together: what the observations a handler
 * produces for one message become once they reach the collector's store.
 */
module Pipeline {
  import opened Wrappers
  import opened Config
  import opened Helper
  import opened Handler
  import opened Collector

  /** Feeding a sequence of observations, all at time `now`, into the store. */
  function Replay(cache: map<string, Entry>, obs: seq<Observation>, now: int): map<string, Entry>
  {
    if obs == [] then cache
    else
      var n := |obs| - 1;
      var o := obs[n];
      Upsert(Replay(cache, obs[..n], now), o.metric, o.topic, o.value, o.expiration, o.labelValues, now)
  }

  /**
   * Every observation a handler produces carries as many label values as its
   * descriptor has labels, so the collector always stores it: building the
   * constant metric never fails for handler output.
   */
  lemma HandlerObservationsStored(kind: Kind, metric: Metric, msg: Message,
                                  parseFloat: string -> Option<real>, unmarshal: string -> Option<Json>,
                                  cache: map<string, Entry>, now: int)
    ensures forall o :: o in MessageObservations(kind, metric, msg, parseFloat, unmarshal) ==>
      var stored := Upsert(cache, o.metric, o.topic, o.value, o.expiration, o.labelValues, now);
      && Key(o.metric.prometheusName, msg.topic) in stored
      && stored[Key(o.metric.prometheusName, msg.topic)].m.value == o.value
      && stored[Key(o.metric.prometheusName, msg.topic)].m.labelValues == o.labelValues
  {
    MessageObservationsShape(kind, metric, msg, parseFloat, unmarshal);
  }

  /**
   * End to end for a scalar metric: a numeric payload, collected before the
   * metric's expiration elapses, is exported with the parsed value and the
   * topic label vector, provided the metric's name is in the catalog.
   */
  lemma ScalarMessageExported(metric: Metric, msg: Message, parseFloat: string -> Option<real>,
                              unmarshal: string -> Option<Json>, cache: map<string, Entry>,
                              metrics: seq<Metric>, now: int, later: int)
    requires metric.prometheusName == metric.baseName && '|' !in metric.prometheusName
    requires FirstByName(metrics, metric.prometheusName).Some?
    requires parseFloat(msg.payload).Some?
    requires now <= later < now + metric.expiration
    ensures var stored := Replay(cache, MessageObservations(Scalar, metric, msg, parseFloat, unmarshal), now);
      var key := Key(metric.prometheusName, msg.topic);
      && Exported(stored, metrics, key, later)
      && SampleFor(stored, metrics, key, later).m.value == parseFloat(msg.payload).value
      && SampleFor(stored, metrics, key, later).m.labelValues == LabelValues(msg.topic, metric.topicLabels)
  {
    var obs := MessageObservations(Scalar, metric, msg, parseFloat, unmarshal);
    MessageObservationsShape(Scalar, metric, msg, parseFloat, unmarshal);
    assert obs[..0] == [];
    ObserveThenCollect(cache, metrics, metric, msg.topic, obs[0].value, metric.expiration,
                       obs[0].labelValues, now, later);
  }

  /**
   * A JSON field's observation is stored under BaseName + "_" + field, and
   * Collect exports it only if some configured metric has exactly that name;
   * the metric that declared the field (named BaseName) does not match it.
   */
  lemma JsonFieldExportedOnlyIfConfigured(metric: Metric, topic: string, labels: seq<string>,
                                          fields: map<string, Json>, field: string,
                                          parseFloat: string -> Option<real>,
                                          cache: map<string, Entry>, metrics: seq<Metric>, now: int, later: int)
    requires '|' !in FieldName(metric, field)
    requires |labels| == 1 + |metric.topicLabels|
    requires FieldValue(fields, field, parseFloat).Some?
    ensures var o := FieldObservations(metric, topic, labels, fields, [field], parseFloat);
      var key := Key(FieldName(metric, field), topic);
      && |o| == 1
      && key in Replay(cache, o, now)
      && (Exported(Replay(cache, o, now), metrics, key, later) ==>
            exists i :: 0 <= i < |metrics| && metrics[i].prometheusName == FieldName(metric, field))
  {
    var o := FieldObservations(metric, topic, labels, fields, [field], parseFloat);
    assert [field][..0] == [];
    assert o[..0] == [];
    KeyNameOfKey(FieldName(metric, field), topic);
  }

  /**
   * Two different fields of one metric are stored under different keys for
   * the same topic, so one field's observation never overwrites a sibling's.
   */
  lemma FieldKeysDistinct(metric: Metric, topic: string, field1: string, field2: string)
    requires '|' !in FieldName(metric, field1) && '|' !in FieldName(metric, field2)
    requires field1 != field2
    ensures Key(FieldName(metric, field1), topic) != Key(FieldName(metric, field2), topic)
  {
    if Key(FieldName(metric, field1), topic) == Key(FieldName(metric, field2), topic) {
      KeyInjective(FieldName(metric, field1), topic, FieldName(metric, field2), topic);
      FieldNameInjective(metric, field1, field2);
    }
  }
}
