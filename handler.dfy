/**
 * mqtt/handler.go: the per-metric message handler. It builds the label
 * vector from the topic, turns the payload into one number (scalar metrics)
 * or one number per configured JSON field, and calls the collector's
 * `Observe` once per number. The collector is modelled, as the exporter's
 * own tests do, by the trace of `Observe` calls it receives.
 */
module Handler {
  import opened Wrappers
  import opened Config
  import opened Helper

  /** An inbound MQTT message: its topic and its payload as text. */
  datatype Message = Message(topic: string, payload: string)

  /** One call of `collector.Observe(metric, topic, v, expiration, labelValues...)`. */
  datatype Observation = Observation(
    metric: Metric,
    topic: string,
    value: real,
    expiration: int,
    labelValues: seq<string>)

  /** Which of the two handler closures NewMessageHandler returned. */
  datatype Kind = Scalar | JsonFields

  /**
   * The label vector: the topic, then one topic segment per topic label, in
   * the labels' configuration order.
   */
  function LabelValues(topic: string, topicLabels: seq<(string, int)>): (labels: seq<string>)
    ensures |labels| == 1 + |topicLabels|
    ensures labels[0] == topic
    ensures forall k :: 0 <= k < |topicLabels| ==> labels[k + 1] == TopicPart(topic, topicLabels[k].1)
  {
    if topicLabels == [] then [topic]
    else
      var n := |topicLabels| - 1;
      LabelValues(topic, topicLabels[..n]) + [TopicPart(topic, topicLabels[n].1)]
  }

  /**
   * `strconv.ParseFloat(fmt.Sprintf("%v", value), 64)` for a decoded JSON
   * value: a number formats to text that parses back to itself; a string
   * formats to itself and is handed to the float parser; booleans, null,
   * arrays and objects format to text ("true", "<nil>", "[...]", "map[...]")
   * that never parses as a float.
   */
  function ToNumber(value: Json, parseFloat: string -> Option<real>): Option<real>
  {
    match value
    case JNumber(n) => Some(n)
    case JString(s) => parseFloat(s)
    case _ => None
  }

  /** The value a JSON field resolves to, if it is found and numeric. */
  function FieldValue(fields: map<string, Json>, field: string, parseFloat: string -> Option<real>): Option<real>
  {
    match FindInJson(fields, field)
    case None => None
    case Some(v) => ToNumber(v, parseFloat)
  }

  /** The name a JSON field is exported under: BaseName + "_" + field (the whole path). */
  function FieldName(metric: Metric, field: string): string
  {
    metric.baseName + "_" + field
  }

  /**
   * The `Observe` call the JSON handler makes for one field: none when the
   * field is missing or not numeric, otherwise one under BaseName + "_" + field.
   */
  function FieldObservation(metric: Metric, topic: string, labels: seq<string>,
                            fields: map<string, Json>, field: string,
                            parseFloat: string -> Option<real>): seq<Observation>
  {
    match FieldValue(fields, field, parseFloat)
    case None => []
    case Some(v) =>
      [Observation(metric.(prometheusName := FieldName(metric, field)), topic, v, metric.expiration, labels)]
  }

  /** The `Observe` calls the JSON handler makes for `jsonFields`, in order. */
  function FieldObservations(metric: Metric, topic: string, labels: seq<string>,
                             fields: map<string, Json>, jsonFields: seq<string>,
                             parseFloat: string -> Option<real>): seq<Observation>
  {
    if jsonFields == [] then []
    else
      var n := |jsonFields| - 1;
      FieldObservations(metric, topic, labels, fields, jsonFields[..n], parseFloat)
        + FieldObservation(metric, topic, labels, fields, jsonFields[n], parseFloat)
  }

  /**
   * What `json.Unmarshal(payload, &jsonMap)` leaves in the map: the object's
   * members; nothing for JSON `null` (no error, the map stays empty); an
   * error (None) for malformed text and for any other kind of value.
   */
  function DecodeObject(decoded: Option<Json>): Option<map<string, Json>>
  {
    match decoded
    case Some(JObject(fields)) => Some(fields)
    case Some(JNull) => Some(map[])
    case _ => None
  }

  /** All `Observe` calls one message causes, for either kind of handler. */
  function MessageObservations(kind: Kind, metric: Metric, msg: Message,
                               parseFloat: string -> Option<real>,
                               unmarshal: string -> Option<Json>): seq<Observation>
  {
    match kind
    case Scalar =>
      (match parseFloat(msg.payload)
       case None => []
       case Some(v) =>
         [Observation(metric, msg.topic, v, metric.expiration, LabelValues(msg.topic, metric.topicLabels))])
    case JsonFields =>
      (match DecodeObject(unmarshal(msg.payload))
       case None => []
       case Some(fields) =>
         FieldObservations(metric, msg.topic, LabelValues(msg.topic, metric.topicLabels),
                           fields, metric.jsonField, parseFloat))
  }

  /** The fields of `jsonFields` that resolve to a number, in order. */
  function ResolvedFields(fields: map<string, Json>, jsonFields: seq<string>,
                          parseFloat: string -> Option<real>): (resolved: seq<string>)
  {
    if jsonFields == [] then []
    else
      var n := |jsonFields| - 1;
      ResolvedFields(fields, jsonFields[..n], parseFloat)
        + (if FieldValue(fields, jsonFields[n], parseFloat).Some? then [jsonFields[n]] else [])
  }

  /**
   * Fields are handled independently: the calls for a list of fields are the
   * calls for its first part followed by those for the rest, so a field that
   * fails never changes what its siblings produce.
   */
  lemma {:induction false} FieldObservationsAppend(metric: Metric, topic: string, labels: seq<string>,
                                                   fields: map<string, Json>, a: seq<string>, b: seq<string>,
                                                   parseFloat: string -> Option<real>)
    ensures FieldObservations(metric, topic, labels, fields, a + b, parseFloat)
         == FieldObservations(metric, topic, labels, fields, a, parseFloat)
          + FieldObservations(metric, topic, labels, fields, b, parseFloat)
  {
    if b == [] {
      assert a + b == a;
    } else {
      var n := |b| - 1;
      assert (a + b)[..|a + b| - 1] == a + b[..n];
      assert (a + b)[|a + b| - 1] == b[n];
      FieldObservationsAppend(metric, topic, labels, fields, a, b[..n], parseFloat);
    }
  }

  /**
   * The JSON handler observes exactly the fields that resolve to a number, in
   * configuration order: each under BaseName + "_" + field with the field's
   * number, the message topic, the metric's expiration and the shared label
   * vector. Hence at most one call per configured field.
   */
  lemma {:induction false} FieldObservationsResolved(metric: Metric, topic: string, labels: seq<string>,
                                                     fields: map<string, Json>, jsonFields: seq<string>,
                                                     parseFloat: string -> Option<real>)
    ensures var obs := FieldObservations(metric, topic, labels, fields, jsonFields, parseFloat);
      var resolved := ResolvedFields(fields, jsonFields, parseFloat);
      && |obs| == |resolved| <= |jsonFields|
      && forall i :: 0 <= i < |obs| ==>
           && resolved[i] in jsonFields
           && FieldValue(fields, resolved[i], parseFloat) == Some(obs[i].value)
           && obs[i] == Observation(metric.(prometheusName := FieldName(metric, resolved[i])),
                                    topic, obs[i].value, metric.expiration, labels)
  {
    if jsonFields != [] {
      var n := |jsonFields| - 1;
      FieldObservationsResolved(metric, topic, labels, fields, jsonFields[..n], parseFloat);
      assert forall f :: f in jsonFields[..n] ==> f in jsonFields;
    }
  }

  /**
   * What one message does to the collector. A scalar handler observes once
   * when the payload parses as a float and not at all otherwise; a JSON
   * handler observes nothing when the payload is not an object and at most
   * once per JSON field otherwise. Every call is keyed by the message topic,
   * uses the metric's expiration and topic labels, and carries a label vector
   * of 1 + |topicLabels| values whose first is the topic.
   */
  lemma MessageObservationsShape(kind: Kind, metric: Metric, msg: Message,
                                 parseFloat: string -> Option<real>, unmarshal: string -> Option<Json>)
    ensures var obs := MessageObservations(kind, metric, msg, parseFloat, unmarshal);
      && (kind == Scalar ==> |obs| == (if parseFloat(msg.payload).Some? then 1 else 0))
      && (kind == Scalar && |obs| == 1 ==> obs[0].metric == metric && Some(obs[0].value) == parseFloat(msg.payload))
      && (kind == JsonFields && DecodeObject(unmarshal(msg.payload)).None? ==> obs == [])
      && (kind == JsonFields ==> |obs| <= |metric.jsonField|)
      && forall o :: o in obs ==>
           && o.topic == msg.topic
           && o.expiration == metric.expiration
           && o.metric.topicLabels == metric.topicLabels
           && o.metric.valueType == metric.valueType
           && o.labelValues == LabelValues(msg.topic, metric.topicLabels)
           && |o.labelValues| == 1 + |metric.topicLabels|
           && o.labelValues[0] == msg.topic
  {
    if kind == JsonFields {
      var decoded := DecodeObject(unmarshal(msg.payload));
      if decoded.Some? {
        FieldObservationsResolved(metric, msg.topic, LabelValues(msg.topic, metric.topicLabels),
                                  decoded.value, metric.jsonField, parseFloat);
      }
    }
  }

  /**
   * Distinct fields of one metric are exported under distinct names, so their
   * observations never share a cache key.
   */
  lemma FieldNameInjective(metric: Metric, field1: string, field2: string)
    requires FieldName(metric, field1) == FieldName(metric, field2)
    ensures field1 == field2
  {
    assert field1 == FieldName(metric, field1)[|metric.baseName| + 1..];
  }

  /**
   * The handler returned by NewMessageHandler. `observed` stands for the
   * collector: each `Observe` call is appended to it.
   */
  class MessageHandler {
    var metric: Metric
    const kind: Kind
    const parseFloat: string -> Option<real>
    const unmarshal: string -> Option<Json>
    var observed: seq<Observation>

    /** Between messages the metric carries its own name, saved as its base name. */
    ghost predicate Valid()
      reads this
    {
      metric.prometheusName == metric.baseName
    }

    /**
     * NewMessageHandler: saves PrometheusName as BaseName and picks the JSON
     * handler iff there are JSON fields.
     */
    constructor (metric: Metric, parseFloat: string -> Option<real>, unmarshal: string -> Option<Json>)
      ensures Valid()
      ensures this.metric == metric.(baseName := metric.prometheusName)
      ensures kind == JsonFields <==> |metric.jsonField| > 0
      ensures this.parseFloat == parseFloat && this.unmarshal == unmarshal
      ensures observed == []
    {
      this.metric := metric.(baseName := metric.prometheusName);
      this.kind := if |metric.jsonField| > 0 then JsonFields else Scalar;
      this.parseFloat := parseFloat;
      this.unmarshal := unmarshal;
      this.observed := [];
    }

    /** The label vector, built by appending one topic segment per label. */
    method BuildLabelValues(topic: string) returns (labelValues: seq<string>)
      ensures labelValues == LabelValues(topic, metric.topicLabels)
    {
      labelValues := [topic];
      var topicLabels := metric.topicLabels;
      for i := 0 to |topicLabels|
        invariant labelValues == LabelValues(topic, topicLabels[..i])
      {
        assert topicLabels[..i + 1][..i] == topicLabels[..i];
        labelValues := labelValues + [TopicPart(topic, topicLabels[i].1)];
      }
      assert topicLabels[..|topicLabels|] == topicLabels;
    }

    /** Delivers one message to the handler NewMessageHandler returned. */
    method Handle(msg: Message)
      requires Valid()
      modifies this
      ensures Valid() && metric == old(metric)
      ensures observed == old(observed) + MessageObservations(kind, metric, msg, parseFloat, unmarshal)
    {
      if kind == JsonFields {
        HandleJson(msg);
      } else {
        HandleScalar(msg);
      }
    }

    /**
     * getMessageHandler's closure: parse the payload as a float; on failure
     * return without observing; otherwise observe once under the message topic.
     */
    method HandleScalar(msg: Message)
      requires Valid()
      modifies this
      ensures Valid() && metric == old(metric)
      ensures observed == old(observed) + MessageObservations(Scalar, metric, msg, parseFloat, unmarshal)
    {
      var parsed := parseFloat(msg.payload);
      if parsed.None? {
        return;
      }
      var labelValues := BuildLabelValues(msg.topic);
      observed := observed + [Observation(metric, msg.topic, parsed.value, metric.expiration, labelValues)];
    }

    /**
     * getJSONMessageHandler's closure: decode the payload as an object, build
     * the label vector, then for each field in order observe its number under
     * BaseName + "_" + field, renaming the metric for the call and restoring
     * its name afterwards; fields that are missing or not numeric are skipped.
     */
    method HandleJson(msg: Message)
      requires Valid()
      modifies this
      ensures Valid() && metric == old(metric)
      ensures observed == old(observed) + MessageObservations(JsonFields, metric, msg, parseFloat, unmarshal)
    {
      var decoded := DecodeObject(unmarshal(msg.payload));
      if decoded.None? {
        return;
      }
      var jsonMap := decoded.value;
      var labelValues := BuildLabelValues(msg.topic);
      var jsonFields := metric.jsonField;
      for i := 0 to |jsonFields|
        invariant Valid() && metric == old(metric)
        invariant observed == old(observed)
          + FieldObservations(metric, msg.topic, labelValues, jsonMap, jsonFields[..i], parseFloat)
      {
        var field := jsonFields[i];
        assert jsonFields[..i + 1][..i] == jsonFields[..i];
        assert FieldObservations(metric, msg.topic, labelValues, jsonMap, jsonFields[..i + 1], parseFloat)
            == FieldObservations(metric, msg.topic, labelValues, jsonMap, jsonFields[..i], parseFloat)
             + FieldObservation(metric, msg.topic, labelValues, jsonMap, field, parseFloat);
        var found := FindInJson(jsonMap, field);
        if found.None? {
          continue;
        }
        var floatValue := ToNumber(found.value, parseFloat);
        if floatValue.None? {
          continue;
        }
        var origName := metric.prometheusName;
        metric := metric.(prometheusName := FieldName(metric, field));
        observed := observed + [Observation(metric, msg.topic, floatValue.value, metric.expiration, labelValues)];
        metric := metric.(prometheusName := origName);
      }
      assert jsonFields[..|jsonFields|] == jsonFields;
    }
  }
}
