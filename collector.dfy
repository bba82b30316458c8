/**
 * prometheus/collector.go: the memory-cached collector. Observations are
 * upserted into a map keyed by PrometheusName + "|" + topic, each entry with
 * the time it was recorded and the time it expires; `Collect` turns the live
 * entries whose metric is configured into timestamped samples, and
 * `Describe` lists the configured metrics' descriptors. The wall clock is a
 * `now` parameter.
 */
module Collector {
  import opened Wrappers
  import opened Strings
  import opened Config

  /** A constant Prometheus metric: descriptor, value type, value and label values. */
  datatype ConstMetric = ConstMetric(desc: Desc, valueType: ValueType, value: real, labelValues: seq<string>)

  /** A cache item: the metric built at `Observe`, when it was recorded, and when it expires. */
  datatype Entry = Entry(m: ConstMetric, ts: int, expiresAt: int)

  /** A collected sample: `prometheus.NewMetricWithTimestamp(ts, m)`. */
  datatype Sample = Sample(m: ConstMetric, ts: int)

  /**
   * prometheus.NewConstMetric: fails when the number of label values differs
   * from the number of the descriptor's variable labels.
   */
  function NewConstMetric(desc: Desc, valueType: ValueType, v: real, labelValues: seq<string>): (r: Option<ConstMetric>)
    ensures r.Some? <==> |labelValues| == |desc.variableLabels|
    ensures r.Some? ==> r.value.desc == desc && r.value.value == v && r.value.labelValues == labelValues
  {
    if |labelValues| == |desc.variableLabels| then Some(ConstMetric(desc, valueType, v, labelValues)) else None
  }

  /** The cache key of an observation: fmt.Sprintf("%s|%s", name, topic). */
  function Key(name: string, topic: string): string
  {
    name + "|" + topic
  }

  /** The metric name Collect reads back from a key: strings.Split(key, "|")[0]. */
  function KeyName(key: string): string
  {
    Split(key, '|')[0]
  }

  /** For a name without '|', reading the name back from its key recovers it exactly. */
  lemma KeyNameOfKey(name: string, topic: string)
    requires '|' !in name
    ensures KeyName(Key(name, topic)) == name
  {
    assert Key(name, topic) == name + ['|'] + topic;
    SplitPrefix(name, topic, '|');
  }

  /**
   * Keys of names without '|' are distinct for distinct (name, topic) pairs,
   * so at most one entry exists per pair.
   */
  lemma KeyInjective(name1: string, topic1: string, name2: string, topic2: string)
    requires '|' !in name1 && '|' !in name2
    requires Key(name1, topic1) == Key(name2, topic2)
    ensures name1 == name2 && topic1 == topic2
  {
    KeyNameOfKey(name1, topic1);
    KeyNameOfKey(name2, topic2);
    assert Key(name1, topic1)[|name1| + 1..] == topic1;
  }

  /** An entry is live while the clock has not reached its expiry time. */
  predicate Live(e: Entry, now: int)
  {
    now < e.expiresAt
  }

  /**
   * `Observe` on the map: build the metric from the (possibly renamed)
   * metric's descriptor; if that fails leave the map alone, otherwise set the
   * entry under the metric's key, recorded now and expiring `expiration` later.
   */
  function Upsert(cache: map<string, Entry>, metric: Metric, topic: string, v: real,
                  expiration: int, labelValues: seq<string>, now: int): (r: map<string, Entry>)
    ensures |labelValues| != 1 + |metric.topicLabels| ==> r == cache
    ensures |labelValues| == 1 + |metric.topicLabels| ==>
      var key := Key(metric.prometheusName, topic);
      && r.Keys == cache.Keys + {key}
      && r[key] == Entry(ConstMetric(Description(metric), metric.valueType, v, labelValues), now, now + expiration)
      && forall k :: k in cache && k != key ==> r[k] == cache[k]
  {
    match NewConstMetric(Description(metric), metric.valueType, v, labelValues)
    case None => cache
    case Some(m) => cache[Key(metric.prometheusName, topic) := Entry(m, now, now + expiration)]
  }

  /**
   * getMetricByName as a specification: the first configured metric with the
   * given name, or None when no configured metric has it.
   */
  function FirstByName(metrics: seq<Metric>, name: string): (r: Option<Metric>)
    ensures r.None? <==> forall i :: 0 <= i < |metrics| ==> metrics[i].prometheusName != name
    ensures r.Some? ==> exists i :: (0 <= i < |metrics| && metrics[i] == r.value
      && metrics[i].prometheusName == name
      && forall j :: 0 <= j < i ==> metrics[j].prometheusName != name)
  {
    if metrics == [] then None
    else if metrics[0].prometheusName == name then Some(metrics[0])
    else
      var r := FirstByName(metrics[1..], name);
      if r.Some? then
        var i :| 0 <= i < |metrics[1..]| && metrics[1..][i] == r.value
          && metrics[1..][i].prometheusName == name
          && forall j :: 0 <= j < i ==> metrics[1..][j].prometheusName != name;
        assert metrics[i + 1] == r.value;
        r
      else r
  }

  /** The descriptors NewCollector builds: one per configured metric, in order. */
  function Descriptions(metrics: seq<Metric>): (ds: seq<Desc>)
    ensures |ds| == |metrics|
    ensures forall i :: 0 <= i < |metrics| ==> ds[i] == Description(metrics[i])
  {
    seq(|metrics|, i requires 0 <= i < |metrics| => Description(metrics[i]))
  }

  /** Whether Collect turns the entry under `key` into a sample: it is live and its metric name is configured. */
  predicate Exported(cache: map<string, Entry>, metrics: seq<Metric>, key: string, now: int)
  {
    key in cache && Live(cache[key], now) && FirstByName(metrics, KeyName(key)).Some?
  }

  /**
   * The sample Collect emits for an exported key: the stored metric, stamped
   * with the collect time when the matched metric has FakeTS and with the
   * recorded time otherwise.
   */
  function SampleFor(cache: map<string, Entry>, metrics: seq<Metric>, key: string, now: int): Sample
    requires Exported(cache, metrics, key, now)
  {
    var metric := FirstByName(metrics, KeyName(key)).value;
    Sample(cache[key].m, if metric.fakeTS then now else cache[key].ts)
  }

  /**
   * Last write wins: a second observation under the same name and topic
   * replaces the first one's value, labels, timestamp and expiry entirely.
   */
  lemma UpsertOverwrites(cache: map<string, Entry>, metric: Metric, topic: string,
                         v1: real, expiration1: int, labels1: seq<string>, now1: int,
                         v2: real, expiration2: int, labels2: seq<string>, now2: int)
    requires |labels2| == 1 + |metric.topicLabels|
    ensures Upsert(Upsert(cache, metric, topic, v1, expiration1, labels1, now1), metric, topic, v2, expiration2, labels2, now2)
         == Upsert(cache, metric, topic, v2, expiration2, labels2, now2)
  {
    var once := Upsert(cache, metric, topic, v1, expiration1, labels1, now1);
    var twice := Upsert(once, metric, topic, v2, expiration2, labels2, now2);
    var direct := Upsert(cache, metric, topic, v2, expiration2, labels2, now2);
    assert twice.Keys == direct.Keys;
    assert forall k :: k in twice ==> twice[k] == direct[k];
  }

  /**
   * Observe then Collect: an observation of a configured metric, collected
   * before its expiration elapses, is exported as exactly the value and
   * labels observed, stamped with the observation time, or with the collect
   * time (never earlier) when the configured metric has FakeTS.
   */
  lemma ObserveThenCollect(cache: map<string, Entry>, metrics: seq<Metric>, metric: Metric, topic: string,
                           v: real, expiration: int, labels: seq<string>, now: int, later: int)
    requires '|' !in metric.prometheusName
    requires FirstByName(metrics, metric.prometheusName).Some?
    requires |labels| == 1 + |metric.topicLabels|
    requires now <= later < now + expiration
    ensures var stored := Upsert(cache, metric, topic, v, expiration, labels, now);
      var key := Key(metric.prometheusName, topic);
      && Exported(stored, metrics, key, later)
      && SampleFor(stored, metrics, key, later).m == ConstMetric(Description(metric), metric.valueType, v, labels)
      && SampleFor(stored, metrics, key, later).ts
         == (if FirstByName(metrics, metric.prometheusName).value.fakeTS then later else now)
      && now <= SampleFor(stored, metrics, key, later).ts <= later
  {
    KeyNameOfKey(metric.prometheusName, topic);
  }

  /**
   * Staleness: once the expiration of an observation has elapsed, its key is
   * no longer exported, unless a later observation under the same key
   * refreshed it (observations under other keys leave it alone).
   */
  lemma StaleAfterExpiration(cache: map<string, Entry>, metrics: seq<Metric>, metric: Metric, topic: string,
                             v: real, expiration: int, labels: seq<string>, now: int,
                             other: Metric, otherTopic: string, w: real, otherExpiration: int,
                             otherLabels: seq<string>, otherNow: int, later: int)
    requires |labels| == 1 + |metric.topicLabels|
    requires Key(other.prometheusName, otherTopic) != Key(metric.prometheusName, topic)
    requires later >= now + expiration
    ensures var stored := Upsert(Upsert(cache, metric, topic, v, expiration, labels, now),
                                 other, otherTopic, w, otherExpiration, otherLabels, otherNow);
      !Exported(stored, metrics, Key(metric.prometheusName, topic), later)
  {
  }

  /** Entries whose name is not a configured metric's are never exported. */
  lemma UnconfiguredNotExported(cache: map<string, Entry>, metrics: seq<Metric>, key: string, now: int)
    requires forall i :: 0 <= i < |metrics| ==> metrics[i].prometheusName != KeyName(key)
    ensures !Exported(cache, metrics, key, now)
  {
  }

  /** A sequence without repetitions drawn from a set is no longer than the set. */
  lemma {:induction false} DistinctBound(keys: seq<string>, s: set<string>)
    requires forall i, j :: 0 <= i < j < |keys| ==> keys[i] != keys[j]
    requires forall i :: 0 <= i < |keys| ==> keys[i] in s
    ensures |keys| <= |s|
  {
    if keys != [] {
      var n := |keys| - 1;
      DistinctBound(keys[..n], s - {keys[n]});
    }
  }

  /** The collector NewCollector returns. */
  class MemoryCachedCollector {
    var cache: map<string, Entry>
    const descriptions: seq<Desc>
    const metrics: seq<Metric>

    /** The descriptors are those of the configured metrics. */
    ghost predicate Valid()
      reads this
    {
      descriptions == Descriptions(metrics)
    }

    /** NewCollector: one descriptor per configured metric, in order, and an empty cache. */
    constructor (possibleMetrics: seq<Metric>)
      ensures Valid()
      ensures metrics == possibleMetrics && cache == map[]
    {
      var descs: seq<Desc> := [];
      for i := 0 to |possibleMetrics|
        invariant |descs| == i
        invariant forall j :: 0 <= j < i ==> descs[j] == Description(possibleMetrics[j])
      {
        descs := descs + [Description(possibleMetrics[i])];
      }
      cache := map[];
      descriptions := descs;
      metrics := possibleMetrics;
    }

    /**
     * Observe: upsert under PrometheusName + "|" + topic, recorded now and
     * expiring after the caller's expiration; nothing is stored when the
     * metric cannot be built.
     */
    method Observe(metric: Metric, topic: string, v: real, expiration: int, labelValues: seq<string>, now: int)
      requires Valid()
      requires expiration > 0
      modifies this
      ensures Valid()
      ensures cache == Upsert(old(cache), metric, topic, v, expiration, labelValues, now)
    {
      var m := NewConstMetric(Description(metric), metric.valueType, v, labelValues);
      if m.None? {
        return;
      }
      var key := Key(metric.prometheusName, topic);
      cache := cache[key := Entry(m.value, now, now + expiration)];
    }

    /** Describe: exactly the descriptors built at construction, whatever the cache holds. */
    method Describe() returns (ds: seq<Desc>)
      requires Valid()
      ensures |ds| == |metrics|
      ensures forall i :: 0 <= i < |metrics| ==> ds[i] == Description(metrics[i])
    {
      ds := [];
      for i := 0 to |descriptions|
        invariant ds == descriptions[..i]
      {
        ds := ds + [descriptions[i]];
      }
    }

    /** getMetricByName: the first configured metric with that name, or the zero metric and false. */
    method GetMetricByName(name: string) returns (metric: Metric, ok: bool)
      ensures ok <==> exists i :: 0 <= i < |metrics| && metrics[i].prometheusName == name
      ensures ok ==> FirstByName(metrics, name) == Some(metric)
      ensures !ok ==> metric == ZERO_METRIC
    {
      for i := 0 to |metrics|
        invariant forall j :: 0 <= j < i ==> metrics[j].prometheusName != name
      {
        if metrics[i].prometheusName == name {
          return metrics[i], true;
        }
      }
      return ZERO_METRIC, false;
    }

    /**
     * Collect: one sample per live entry whose name (the key's text before
     * the first '|') is configured, in some order; `keys` are the entries the
     * samples come from, each exported key exactly once.
     */
    method Collect(now: int) returns (samples: seq<Sample>, ghost keys: seq<string>)
      requires Valid()
      ensures |samples| == |keys|
      ensures forall i, j :: 0 <= i < j < |keys| ==> keys[i] != keys[j]
      ensures forall key :: key in keys <==> Exported(cache, metrics, key, now)
      ensures forall i :: 0 <= i < |keys| ==>
        Exported(cache, metrics, keys[i], now) && samples[i] == SampleFor(cache, metrics, keys[i], now)
      ensures |samples| <= |set key | key in cache && Live(cache[key], now)|
    {
      var items := set key | key in cache && Live(cache[key], now);
      ghost var live := items;
      samples, keys := [], [];
      while items != {}
        invariant items <= live
        invariant |samples| == |keys|
        invariant forall i, j :: 0 <= i < j < |keys| ==> keys[i] != keys[j]
        invariant forall key :: key in keys <==> key in live && key !in items && Exported(cache, metrics, key, now)
        invariant forall i :: 0 <= i < |keys| ==>
          Exported(cache, metrics, keys[i], now) && samples[i] == SampleFor(cache, metrics, keys[i], now)
        decreases items
      {
        var key :| key in items;
        var item := cache[key];
        var metricName := KeyName(key);
        var metric, ok := GetMetricByName(metricName);
        if ok {
          samples := samples + [Sample(item.m, if metric.fakeTS then now else item.ts)];
          keys := keys + [key];
        }
        items := items - {key};
      }
      DistinctBound(keys, live);
    }
  }
}
