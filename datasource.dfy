/**
 The datasource of one dashboard widget, and the in-place rewrite that the
 time-series widget renderer applies to it when the chart's x-axis range
 changes ("after-set-extremes").

 The datasource's `options` is a dictionary from option name to value. A key
 that is absent is different from a key that is present with the value
 `null` or `undefined`: the renderer deletes the relative time-window keys
 rather than blanking them, so the model keeps that distinction.
 */
module Datasources {

  datatype Option<+T> = None | Some(value: T)

  /** The sampling of one aggregator, e.g. `{unit: 'minutes', value: '1'}`. */
  datatype Sampling = Sampling(unit: string, value: string)

  /** One aggregator of a metric; `sampling` is None when the key is absent. */
  datatype Aggregator = Aggregator(name: string, sampling: Option<Sampling>)

  /** One metric of the query, with its ordered aggregators. */
  datatype Metric = Metric(name: string, aggregators: seq<Aggregator>)

  /** The values an option can hold. Numbers are modelled as integers. */
  datatype Value =
    | Undefined
    | Null
    | Bool(b: bool)
    | Num(n: int)
    | Text(s: string)
    | MetricList(metrics: seq<Metric>)

  type Options = map<string, Value>

  /** A widget's datasource: an identifier and its mutable option table. */
  datatype Datasource = Datasource(id: string, options: Options)

  // Option names the renderer reads or writes.
  const StartAbsolute: string := "start_absolute"
  const EndAbsolute: string := "end_absolute"
  const StartRelative: string := "start_relative"
  const EndRelative: string := "end_relative"
  const CacheTime: string := "cache_time"
  const MetricsKey: string := "metrics"

  /** The cache hint written on every axis-range change. */
  const CacheTimeMs: int := 1000

  /** The sampling written into the first aggregator of the first metric. */
  const MinuteSampling: Sampling := Sampling("minutes", "1")

  /** The option names the axis-range rewrite touches; every other key is left alone. */
  const TouchedKeys: set<string> :=
    {StartAbsolute, EndAbsolute, CacheTime, MetricsKey, StartRelative, EndRelative}

  /**
   `options.metrics[0].aggregators[0]` exists. Without it the JavaScript
   assignment to its `sampling` throws a TypeError.
   */
  predicate HasFirstAggregator(options: Options) {
    && MetricsKey in options
    && options[MetricsKey].MetricList?
    && |options[MetricsKey].metrics| > 0
    && |options[MetricsKey].metrics[0].aggregators| > 0
  }

  /** The query asks for an absolute time window and carries no relative one. */
  predicate AbsoluteWindowOnly(options: Options) {
    && StartAbsolute in options
    && EndAbsolute in options
    && StartRelative !in options
    && EndRelative !in options
  }

  /**
   Reference description of "only the sampling of the first aggregator of the
   first metric changed, and it became `s`": same number and order of metrics
   and of the first metric's aggregators, everything else equal.
   */
  predicate OnlyFirstSamplingChanged(before: seq<Metric>, after: seq<Metric>, s: Sampling) {
    && |before| > 0 && |after| == |before|
    && after[0].name == before[0].name
    && |before[0].aggregators| > 0
    && |after[0].aggregators| == |before[0].aggregators|
    && after[0].aggregators[0].name == before[0].aggregators[0].name
    && after[0].aggregators[0].sampling == Some(s)
    && (forall j :: 0 < j < |before[0].aggregators| ==>
          after[0].aggregators[j] == before[0].aggregators[j])
    && (forall i :: 0 < i < |before| ==> after[i] == before[i])
  }

  /** `metrics[0].aggregators[0].sampling = s`, on the value of the metrics list. */
  function SetFirstSampling(metrics: seq<Metric>, s: Sampling): (r: seq<Metric>)
    requires |metrics| > 0 && |metrics[0].aggregators| > 0
    ensures OnlyFirstSamplingChanged(metrics, r, s)
  {
    var m := metrics[0];
    var a := m.aggregators[0];
    metrics[0 := m.(aggregators := m.aggregators[0 := a.(sampling := Some(s))])]
  }

  /** Setting sampling `s` and then `t` is the same as setting `t` alone. */
  lemma SetFirstSamplingTwice(metrics: seq<Metric>, s: Sampling, t: Sampling)
    requires |metrics| > 0 && |metrics[0].aggregators| > 0
    ensures SetFirstSampling(SetFirstSampling(metrics, s), t) == SetFirstSampling(metrics, t)
  {
    var once := SetFirstSampling(metrics, t);
    var twice := SetFirstSampling(SetFirstSampling(metrics, s), t);
    assert twice[0].aggregators == once[0].aggregators;
    assert twice[0] == once[0];
  }

  /**
   The rewrite done by the "after-set-extremes" handler: absolute bounds
   from the event, a 1000 ms cache hint, one-minute sampling on the first
   aggregator of the first metric, and the relative bounds deleted.
   */
  function ApplyExtremes(ds: Datasource, min: Value, max: Value): (r: Datasource)
    requires HasFirstAggregator(ds.options)
    ensures r.id == ds.id
    ensures StartAbsolute in r.options && r.options[StartAbsolute] == min
    ensures EndAbsolute in r.options && r.options[EndAbsolute] == max
    ensures CacheTime in r.options && r.options[CacheTime] == Num(CacheTimeMs)
    ensures StartRelative !in r.options && EndRelative !in r.options
    ensures HasFirstAggregator(r.options)
    ensures OnlyFirstSamplingChanged(ds.options[MetricsKey].metrics,
                                     r.options[MetricsKey].metrics, MinuteSampling)
    ensures r.options.Keys == ds.options.Keys + {StartAbsolute, EndAbsolute, CacheTime}
                                              - {StartRelative, EndRelative}
    ensures forall k :: k in ds.options && k !in TouchedKeys ==> r.options[k] == ds.options[k]
  {
    var o := ds.options;
    var sampled := SetFirstSampling(o[MetricsKey].metrics, MinuteSampling);
    var written := o[StartAbsolute := min][EndAbsolute := max][CacheTime := Num(CacheTimeMs)]
                    [MetricsKey := MetricList(sampled)];
    ds.(options := written - {StartRelative} - {EndRelative})
  }

  /**
   A second axis-range change overrides the first completely: the datasource
   after two rewrites depends only on the later bounds.
   */
  lemma ApplyExtremesLastWins(ds: Datasource, min1: Value, max1: Value, min2: Value, max2: Value)
    requires HasFirstAggregator(ds.options)
    ensures ApplyExtremes(ApplyExtremes(ds, min1, max1), min2, max2) == ApplyExtremes(ds, min2, max2)
  {
    var once := ApplyExtremes(ds, min2, max2);
    var mid := ApplyExtremes(ds, min1, max1);
    var twice := ApplyExtremes(mid, min2, max2);
    SetFirstSamplingTwice(ds.options[MetricsKey].metrics, MinuteSampling, MinuteSampling);
    assert twice.options[MetricsKey] == once.options[MetricsKey];
    assert twice.options.Keys == once.options.Keys;
    assert forall k :: k in once.options ==> twice.options[k] == once.options[k];
  }

  /** Handling the same axis-range change twice yields the datasource of handling it once. */
  lemma ApplyExtremesIdempotent(ds: Datasource, min: Value, max: Value)
    requires HasFirstAggregator(ds.options)
    ensures ApplyExtremes(ApplyExtremes(ds, min, max), min, max) == ApplyExtremes(ds, min, max)
  {
    ApplyExtremesLastWins(ds, min, max, min, max);
  }

  /**
   Corollary of the contract of `ApplyExtremes`, named for the window invariant:
   after the rewrite the query is on an absolute window only, whatever window
   (absolute, relative or both) it held before.
   */
  lemma ApplyExtremesWindowExclusive(ds: Datasource, min: Value, max: Value)
    requires HasFirstAggregator(ds.options)
    ensures AbsoluteWindowOnly(ApplyExtremes(ds, min, max).options)
  {
  }
}
