# MQTT-to-Prometheus exporter: a Dafny model of its core

The exporter subscribes to MQTT topics and turns each message into
Prometheus observations. For every configured metric a message handler
takes the number out of the payload: either the whole payload as a scalar,
or one number per configured JSON field path, with an underscore fallback
for dotted paths. It labels the number with the topic and with topic
segments picked by signed index, and hands it to a collector. The collector
keeps the latest observation per metric name and topic in a cache with a
per-entry expiry. On each scrape it returns the live entries as samples,
stamped with the time they were recorded or, for `FakeTS` metrics, with
the scrape time.

The model has one module per source file, plus support modules:

- `Helper` (mqtt/helper.go, pure): `TopicPart` (getTopicPart),
  `TryFind`/`FindInJson` over a tagged JSON value `Json`. It also has the
  reference walk `Walk`, and lemmas that pin down both attempts of the
  lookup.
- `Handler` (mqtt/handler.go, imperative): the class `MessageHandler`. Its
  constructor is NewMessageHandler. `Handle` is the dispatch to the
  closure the constructor chose; `HandleScalar` and `HandleJson` are the
  two closures. The collector the handler calls is
  modelled as the trace `observed` of `Observe` calls, as the exporter's
  tests do with their fake collector. `HandleJson` renames the metric for
  each call and restores the name afterwards, as the source does. The
  specification functions `LabelValues`, `FieldObservations` and
  `MessageObservations` say which calls a message causes.
- `Collector` (prometheus/collector.go, imperative): the class
  `MemoryCachedCollector` over `cache: map<string, Entry>`. Each entry
  records `ts` and `expiresAt`. The methods are `Observe`, `Describe`,
  `Collect` and `GetMetricByName`, and the wall clock is a `now`
  parameter. The specification functions are `Upsert`, `Exported`,
  `SampleFor` and `FirstByName`.
- `Pipeline`: handler output replayed into the store (end-to-end lemmas).
- `Strings`: Go's `strings.Split`, `SplitN(_, _, 2)` and `ReplaceAll` for
  a one-character separator, with the `Split`/`Join` round trip.
- `Config`: the fields of `config.Metric` the core reads, and the
  descriptor built from a metric.
- `Wrappers`: `Option`.
- `HandlerTestCases`: the cases of mqtt/handler_test.go, stated as lemmas.

Points where the code's behaviour is easy to misread:

- A JSON field is exported under `BaseName + "_" + field` with the whole
  field path (`temperatures.out` gives `name_temperatures.out`), not under
  the last path segment (mqtt/handler.go:75).
- The literal walk returns whatever it finds, objects included, and the
  underscore retry happens only when the literal walk finds nothing. A
  field that resolves to an object is then dropped because it is not a
  number (mqtt/helper.go:47-48, mqtt/handler.go:68-72).
- Topic indices count segments of `strings.Split(topic, "/")` from 0, so a
  leading '/' makes segment 0 empty. Index 0 always gives "", and `-len`
  gives segment 0 (mqtt/helper.go:8-11).
- A JSON `null` payload decodes without error into an empty map, so it
  causes no observation but is not an error either (`DecodeObject`).

Worth knowing, proved as `Pipeline.JsonFieldExportedOnlyIfConfigured`:
`Collect` looks up the metric by the name stored in the key. A JSON field's
observation is stored under `BaseName_field`, so it is exported only if
some configured metric carries exactly that name. The metric that declared
the field is named `BaseName` and does not match.

## Model

| member | source | states |
|---|---|---|
| `Strings.Split` | mqtt/helper.go:6 | strings.Split yields one more piece than there are separators, and no piece contains the separator |
| `Strings.JoinSplit` | mqtt/helper.go:6 | joining the pieces of a split with the separator gives back the original string |
| `Strings.SplitJoin` | mqtt/helper.go:6 | splitting a join of separator-free pieces gives back those pieces, so the segmentation is unique |
| `Strings.SplitFirst` | mqtt/helper.go:41 | SplitN(s, ".", 2) gives one piece (s itself) iff s has no '.', else two, the second shorter than s |
| `Strings.SplitFirstSplit` | mqtt/helper.go:41 | SplitN's first piece is Split's first segment and its remainder splits into the remaining segments |
| `Strings.ReplaceAllJoinSplit` | mqtt/helper.go:38 | strings.ReplaceAll of one character by another equals splitting on the first and joining the pieces with the second |
| `Strings.ReplaceAllRemoves` | mqtt/helper.go:38 | after replacing '.' by '_' no '.' is left |
| `Helper.TopicPart` | mqtt/helper.go:5-15 | getTopicPart never fails and its result never contains '/' |
| `Helper.TopicPartOfSegments` | mqtt/helper.go:7-14 | for a topic made of any '/'-free segments: a positive in-range index picks that segment, a negative in-range index picks segment len+idx, index 0 and out-of-range indices give "" |
| `Helper.TopicPartMirror` | mqtt/helper.go:8-11 | -k and len-k pick the same segment for 0 < k < len; -len picks segment 0, which no positive index reaches |
| `Helper.TryFindLiteral` | mqtt/helper.go:35-51 | the literal walk of tryFind equals the reference walk along the '.'-segments: every segment but the last must name an object, and the last value is returned whatever its kind |
| `Helper.TryFindUnderscored` | mqtt/helper.go:36-41 | the underscored attempt never recurses; it is a single top-level lookup of the underscore-joined key |
| `Helper.TryFind` | mqtt/helper.go:35-51 | tryFind; its contract is carried by `TryFindLiteral` (the literal attempt is the reference walk) and `TryFindUnderscored` (the underscored attempt is one top-level lookup) |
| `Helper.FindInJson` | mqtt/helper.go:17-33 | findInJSON; its contract is carried by `FindInJsonSpec` and `FindInJsonDotless` |
| `Helper.FindInJsonSpec` | mqtt/helper.go:17-33 | findInJSON gives not-found for an empty path or empty object, else the literal walk's result if that succeeds, else the underscore-key lookup |
| `Helper.FindInJsonDotless` | mqtt/helper.go:22-30 | for a path without '.', both attempts are the same plain key lookup |
| `Config.Description` | prometheus/collector.go:49 | a metric's descriptor is named after its current PrometheusName and has one label for the topic plus one per topic label |
| `Handler.LabelValues` | mqtt/handler.go:43-46 | the label vector has 1 + \|TopicLabels\| entries: the topic, then getTopicPart of each label's index in label order |
| `Handler.DecodeObject` | mqtt/handler.go:56-60 | json.Unmarshal into a map; its effect is stated by `MessageObservationsShape` (no call when the payload is not an object) and `HandleJson` |
| `Handler.ToNumber` | mqtt/handler.go:68-72 | formatting a field with %v and parsing it; its effect is stated by `FieldObservationsResolved` (one call per field that resolves to a number) and `TestObjectNotNumeric` |
| `Handler.FieldName` | mqtt/handler.go:75 | the per-field metric name; `FieldNameInjective` and `Pipeline.FieldKeysDistinct` state that distinct fields get distinct names and keys |
| `Handler.FieldObservationsAppend` | mqtt/handler.go:66-82 | the calls for fields a ++ b are those for a followed by those for b, so a failing field never affects its siblings |
| `Handler.FieldObservationsResolved` | mqtt/handler.go:66-82 | the JSON handler makes exactly one call per field that resolves to a number, in field order, named BaseName + "_" + field, with that number, the message topic, the metric's expiration and the shared labels; so at most \|JSONField\| calls |
| `Handler.MessageObservationsShape` | mqtt/handler.go:34-84 | scalar: one call iff the payload parses, with the parsed value and the metric unchanged; JSON: no call when the payload is not an object, at most one per field; every call uses the message topic, the metric's expiration and topic labels and a 1 + \|TopicLabels\| label vector headed by the topic |
| `Handler.FieldNameInjective` | mqtt/handler.go:75 | BaseName + "_" + field determines the field: two fields of one metric with the same exported name are the same field |
| `Handler.MessageHandler.constructor` | mqtt/handler.go:21-32 | NewMessageHandler stores the metric with BaseName set to PrometheusName and picks the JSON handler iff JSONField is non-empty |
| `Handler.MessageHandler.BuildLabelValues` | mqtt/handler.go:43-46 | the append loop builds exactly the label vector `LabelValues` |
| `Handler.MessageHandler.Handle` | mqtt/handler.go:28-31 | dispatches to the chosen closure; the trace grows by exactly the message's calls and the metric is unchanged |
| `Handler.MessageHandler.HandleScalar` | mqtt/handler.go:34-49 | a payload that does not parse is dropped with no call; otherwise exactly one Observe with the parsed value |
| `Handler.MessageHandler.HandleJson` | mqtt/handler.go:51-84 | no call for a non-object payload; otherwise the field calls in order; PrometheusName is restored after every call, so the metric is unchanged after the message |
| `Collector.NewConstMetric` | prometheus/collector.go:49-53 | building the metric fails exactly when the label-value count differs from the descriptor's label count |
| `Collector.Key` | prometheus/collector.go:54 | the cache key name + "\|" + topic; `KeyInjective` and `KeyNameOfKey` state what it identifies |
| `Collector.KeyName` | prometheus/collector.go:68 | the name Collect reads back from a key; `KeyNameOfKey` states that it recovers the observed name |
| `Collector.KeyNameOfKey` | prometheus/collector.go:68 | for a name without '\|', the text before the first '\|' of its key is the name |
| `Collector.KeyInjective` | prometheus/collector.go:54 | keys of '\|'-free names identify (name, topic) uniquely |
| `Collector.Upsert` | prometheus/collector.go:48-56 | Observe stores nothing when the metric cannot be built; otherwise it sets the key's entry (value, labels, ts = now, expiry = now + expiration) and leaves every other key unchanged |
| `Collector.UpsertOverwrites` | prometheus/collector.go:54-55 | a second Observe on the same key replaces the first entirely (last write wins) |
| `Collector.ObserveThenCollect` | prometheus/collector.go:48-77 | an observation of a configured metric collected before it expires is exported with exactly its value and labels, stamped with the observe time, or with the collect time under FakeTS |
| `Collector.StaleAfterExpiration` | prometheus/collector.go:55-66 | once an observation's expiration has elapsed it is no longer exported, even after observations under other keys |
| `Collector.UnconfiguredNotExported` | prometheus/collector.go:68-69 | an entry whose name matches no configured metric is skipped |
| `Collector.FirstByName` | prometheus/collector.go:79-86 | the first configured metric with that name, or none iff no configured metric has it |
| `Collector.MemoryCachedCollector.constructor` | prometheus/collector.go:33-46 | NewCollector builds exactly the descriptors of the configured metrics and starts with an empty cache |
| `Collector.MemoryCachedCollector.Observe` | prometheus/collector.go:48-56 | the cache becomes `Upsert` of the old cache: only the observed key's entry changes |
| `Collector.MemoryCachedCollector.Describe` | prometheus/collector.go:58-62 | emits exactly the configured metrics' descriptors in order, whatever the cache holds |
| `Collector.MemoryCachedCollector.GetMetricByName` | prometheus/collector.go:79-86 | found iff some configured metric has the name, and then the first one; otherwise the zero metric |
| `Collector.MemoryCachedCollector.Collect` | prometheus/collector.go:64-77 | one sample per live entry whose key's name is configured, each such entry exactly once, with the stored metric and the stored or (FakeTS) current timestamp; never more samples than live entries |
| `Pipeline.FieldKeysDistinct` | prometheus/collector.go:54 | two different fields of one metric are stored under different keys for the same topic, so neither overwrites the other |
| `Pipeline.HandlerObservationsStored` | prometheus/collector.go:49-55 | every call a handler makes has the descriptor's label count, so the collector always stores it under its key with its value and labels |
| `Pipeline.ScalarMessageExported` | mqtt/handler.go:34-49 | a numeric scalar message for a configured metric is exported, before expiry, with the parsed value and the topic label vector |
| `Pipeline.JsonFieldExportedOnlyIfConfigured` | prometheus/collector.go:68-69 | a resolved JSON field is stored under BaseName_field and exported only if a configured metric has exactly that name |
| `HandlerTestCases.TestTopicSegments` | mqtt/handler_test.go:88 | "/topic/level2/level3/device" splits into "", "topic", "level2", "level3", "device" |
| `HandlerTestCases.TestTopicParts` | mqtt/handler_test.go:84-93 | indices 2, 3, 4 and -1 give level2, level3, device, device; 0, 5, -6 give "" |
| `HandlerTestCases.TestScalarObserved` | mqtt/handler_test.go:79-94 | payload 25.12 is observed once with labels [topic, level2, level3, device] |
| `HandlerTestCases.TestScalarNotANumber` | mqtt/handler_test.go:95-107 | a payload that does not parse causes no call |
| `HandlerTestCases.TestSecondLevel` | mqtt/handler_test.go:125-140 | "temperatures.out" resolves to 12.5 |
| `HandlerTestCases.TestObjectNotNumeric` | mqtt/handler_test.go:141-154 | "temperatures" resolves to an object, which yields no number |
| `HandlerTestCases.TestFanOut` | mqtt/handler_test.go:108-168 | merges two test cases (108-124 with field size, 155-168 with field city) into one message with both fields: city ("Tokyo") is skipped and size is still observed once with -5 as BaseName_size |
| `HandlerTestCases.TestDottedFieldName` | mqtt/handler_test.go:169-184 | "total.count" resolves to 22 |
| `HandlerTestCases.TestUnderscoreFallback` | mqtt/helper.go:27-30 | when the literal walk fails, "total.count" finds the key "total_count" |

## Left out

- MQTT client plumbing (paho client, subscription, the `Message` interface): a message is a (topic, payload) pair.
- `strconv.ParseFloat` and `json.Unmarshal` are library code: they are the handler's function-valued constants `parseFloat` and `unmarshal`, with no assumption on them beyond their types. Formatting a JSON value with `%v` and parsing it back is modelled as: a number gives itself; a string goes to `parseFloat`; booleans, null, arrays and objects never parse. Float precision is not modelled: values are `real`, so `parseFloat` can return no NaN or ±Inf, while Go's ParseFloat accepts "NaN" and "Inf" and the handler would observe them.
- Prometheus client types: `Desc` is a name plus variable label names, `NewConstMetric` fails only on a label-count mismatch, and samples are returned as sequences, not sent on channels. Other checks of the client library, such as metric-name validity, are not modelled. A JSON field path containing '.' may give an invalid Prometheus name.
- `config.Metric.PrometheusDescription`, `PrometheusValueType` and `TopicLabels.KeysInOrder` are not part of this model. The descriptor is taken to have a "topic" label plus one label per topic label. The label order is the given sequence `topicLabels`.
- go-cache internals: the default TTL (`NewCollector`'s expiration argument, which applies to an `Observe` with zero expiration), the janitor (cleanup every 10x that argument), the memory it reclaims, and the exact tick at which an entry expires. Liveness is modelled as `now < expiresAt`.
- Collector.MemoryCachedCollector.Observe: requires a positive expiration; go-cache's `DefaultExpiration`/`NoExpiration` sentinels (zero and negative durations) are not modelled, and with them the collector's default TTL.
- Concurrency: the cache's locking, concurrent handler invocations, and the race on the temporary `PrometheusName` rename. One message is handled at a time.
- The order of `Collect`'s samples: Go's map iteration order is unspecified, so the model picks an arbitrary live key at each step and the contract fixes only which samples appear.
- Logging (zap) is left out.
