/**
 * The cases of mqtt/handler_test.go that concern topic segments and JSON
 * field resolution, stated over the model.
 */
module HandlerTestCases {
  import opened Wrappers
  import opened Strings
  import opened Helper
  import opened Config
  import opened Handler

  const TOPIC := "/topic/level2/level3/device"

  /** The test topic splits into five segments, the first one empty. */
  lemma {:induction false} TestTopicSegments()
    ensures Segments(TOPIC) == ["", "topic", "level2", "level3", "device"]
  {
    var parts := ["", "topic", "level2", "level3", "device"];
    assert Join(parts[4..], '/') == "device";
    assert Join(parts[3..], '/') == "level3" + "/" + "device";
    assert "level3" + "/" + "device" == "level3/device";
    assert Join(parts[2..], '/') == "level2" + "/" + "level3/device";
    assert "level2" + "/" + "level3/device" == "level2/level3/device";
    assert Join(parts[1..], '/') == "topic" + "/" + "level2/level3/device";
    assert "topic" + "/" + "level2/level3/device" == "topic/level2/level3/device";
    assert Join(parts, '/') == "" + "/" + "topic/level2/level3/device";
    assert "" + "/" + "topic/level2/level3/device" == TOPIC;
    SplitJoin(parts, '/');
  }

  /**
   * The label values the tests expect from a topic split like the test
   * topic, and the boundary indices.
   */
  lemma TestTopicParts(topic: string)
    requires Segments(topic) == ["", "topic", "level2", "level3", "device"]
    ensures TopicPart(topic, 2) == "level2"
    ensures TopicPart(topic, 3) == "level3"
    ensures TopicPart(topic, 4) == "device"
    ensures TopicPart(topic, -1) == "device"
    ensures TopicPart(topic, -5) == ""
    ensures TopicPart(topic, 0) == ""
    ensures TopicPart(topic, 5) == ""
    ensures TopicPart(topic, -6) == ""
  {
  }

  /** The JSON payload of the exporter's tests, decoded. */
  const WEATHER := map[
    "city" := JString("Tokyo"),
    "temperatures" := JObject(map["out" := JNumber(12.5), "in" := JNumber(22.15)]),
    "size" := JNumber(-5.0)]

  /** A two-segment dotted path splits into its two segments. */
  lemma DottedPath(a: string, b: string)
    requires '.' !in a && '.' !in b
    ensures Split(a + "." + b, '.') == [a, b]
  {
    assert a + "." + b == a + ['.'] + b;
    SplitPrefix(a, b, '.');
    SplitFree(b, '.');
  }

  /** "temperatures.out" walks into the nested object and finds 12.5. */
  lemma TestSecondLevel(payload: map<string, Json>, a: string, b: string)
    requires payload == WEATHER && a == "temperatures" && b == "out"
    ensures FindInJson(payload, a + "." + b) == Some(JNumber(12.5))
  {
    DottedPath(a, b);
    FindInJsonSpec(payload, a + "." + b);
  }

  /** "temperatures" is found, as an object, which yields no number. */
  lemma TestObjectNotNumeric(payload: map<string, Json>, field: string, parseFloat: string -> Option<real>)
    requires payload == WEATHER && field == "temperatures"
    ensures FindInJson(payload, field) == Some(payload["temperatures"])
    ensures FieldValue(payload, field, parseFloat) == None
  {
    FindInJsonDotless(payload, field);
  }

  /**
   * Fields ["size", "city"]: "city" holds "Tokyo", which does not parse, and
   * is skipped; "size" is still observed, once, with -5, as BaseName_size.
   */
  lemma TestFanOut(metric: Metric, topic: string, labels: seq<string>, payload: map<string, Json>,
                   size: string, city: string, parseFloat: string -> Option<real>)
    requires payload == WEATHER && size == "size" && city == "city"
    requires parseFloat("Tokyo") == None
    ensures FieldObservations(metric, topic, labels, payload, [size, city], parseFloat)
         == [Observation(metric.(prometheusName := metric.baseName + "_" + size), topic, -5.0, metric.expiration, labels)]
  {
    FindInJsonDotless(payload, size);
    FindInJsonDotless(payload, city);
    assert FieldValue(payload, size, parseFloat) == Some(-5.0);
    assert FieldValue(payload, city, parseFloat) == None;
    assert [size, city][..1] == [size];
    assert [size][..0] == [];
    assert FieldObservations(metric, topic, labels, payload, [size, city], parseFloat)
        == FieldObservations(metric, topic, labels, payload, [size], parseFloat);
  }

  /** "total.count" resolves by the literal walk to 22. */
  lemma TestDottedFieldName(payload: map<string, Json>, a: string, b: string)
    requires payload == map["total" := JObject(map["count" := JNumber(22.0), "unknown" := JString("none")]),
                            "random" := JString("2")]
    requires a == "total" && b == "count"
    ensures FindInJson(payload, a + "." + b) == Some(JNumber(22.0))
  {
    DottedPath(a, b);
    FindInJsonSpec(payload, a + "." + b);
  }

  /** When the literal walk fails, "total.count" is retried as the key "total_count". */
  lemma TestUnderscoreFallback(payload: map<string, Json>, a: string, b: string)
    requires payload == map["total_count" := JNumber(7.0)] && a == "total" && b == "count"
    ensures FindInJson(payload, a + "." + b) == Some(JNumber(7.0))
  {
    DottedPath(a, b);
    FindInJsonSpec(payload, a + "." + b);
    assert ReplaceAll(a + "." + b, '.', '_') == "total_count";
  }

  /**
   * "Raw value received and processed": payload "25.12" on a topic split like
   * the test topic (see TestTopicSegments), with topic labels at indices 2, 3
   * and 4, is observed once, with the topic and those three segments as label
   * values.
   */
  lemma TestScalarObserved(metric: Metric, msg: Message, parseFloat: string -> Option<real>,
                           unmarshal: string -> Option<Json>)
    requires Segments(msg.topic) == ["", "topic", "level2", "level3", "device"]
    requires |metric.topicLabels| == 3
    requires metric.topicLabels[0].1 == 2 && metric.topicLabels[1].1 == 3 && metric.topicLabels[2].1 == 4
    requires parseFloat(msg.payload) == Some(25.12)
    ensures MessageObservations(Scalar, metric, msg, parseFloat, unmarshal)
         == [Observation(metric, msg.topic, 25.12, metric.expiration, [msg.topic, "level2", "level3", "device"])]
  {
    var labels := LabelValues(msg.topic, metric.topicLabels);
    assert labels[1] == TopicPart(msg.topic, 2) == "level2";
    assert labels[2] == TopicPart(msg.topic, 3) == "level3";
    assert labels[3] == TopicPart(msg.topic, 4) == "device";
    assert labels == [msg.topic, "level2", "level3", "device"];
  }

  /** "Raw value received and failed to parse": no observation at all. */
  lemma TestScalarNotANumber(metric: Metric, msg: Message, parseFloat: string -> Option<real>,
                             unmarshal: string -> Option<Json>)
    requires parseFloat(msg.payload) == None
    ensures MessageObservations(Scalar, metric, msg, parseFloat, unmarshal) == []
  {
  }
}
