/**
 TimeseriesWidgetRendererCtrl: the controller around one time-series widget.
 It listens for `px-dashboard-event`; on the sub-event "after-set-extremes"
 (the chart's x-axis range changed) it rewrites the widget's datasource in
 place and asks the base WidgetRendererController to fetch with it. Its
 `errorCallback` raises the `errorLoading` flag.

 The base controller's `fetch` is not visible; it is modelled as an append to
 a ghost log of the datasources it was called with.
 */
module TimeseriesWidgetRenderer {
  import opened Datasources

  /** The sub-event name the handler reacts to; every other name is ignored. */
  const AfterSetExtremes: string := "after-set-extremes"

  /** The `args` of a dashboard event: the new x-axis bounds. */
  datatype Extremes = Extremes(min: Value, max: Value)

  /** One delivery of `px-dashboard-event` with its sub-event name and payload. */
  datatype DashboardEvent = DashboardEvent(name: string, args: Extremes)

  /** What the handler leaves behind: the datasource, and every datasource fetched. */
  datatype Trace = Trace(datasource: Datasource, fetched: seq<Datasource>)

  /** Number of events in `es` that the handler acts on; zero exactly when none is named "after-set-extremes". */
  function MatchCount(es: seq<DashboardEvent>): (r: nat)
    ensures r == 0 <==> forall i :: 0 <= i < |es| ==> es[i].name != AfterSetExtremes
    ensures r <= |es|
  {
    if es == [] then 0
    else MatchCount(es[..|es| - 1]) + (if es[|es| - 1].name == AfterSetExtremes then 1 else 0)
  }

  /**
   A history the handler can process without the JavaScript TypeError: either
   the first metric has a first aggregator, or no event asks to write to it.
   */
  predicate Admissible(ds: Datasource, es: seq<DashboardEvent>) {
    HasFirstAggregator(ds.options) || MatchCount(es) == 0
  }

  /**
   The widget's state after the handler has run on each event of `es` in turn,
   starting from datasource `ds` and an empty fetch log.
   */
  function Replay(ds: Datasource, es: seq<DashboardEvent>): (r: Trace)
    requires Admissible(ds, es)
    ensures HasFirstAggregator(ds.options) ==> HasFirstAggregator(r.datasource.options)
    ensures |r.fetched| == MatchCount(es)
    ensures MatchCount(es) > 0 ==> r.fetched[|r.fetched| - 1] == r.datasource
    ensures forall k :: 0 <= k < |r.fetched| ==> AbsoluteWindowOnly(r.fetched[k].options)
    decreases |es|
  {
    if es == [] then Trace(ds, [])
    else
      var prev := Replay(ds, es[..|es| - 1]);
      var e := es[|es| - 1];
      if e.name == AfterSetExtremes then
        var next := ApplyExtremes(prev.datasource, e.args.min, e.args.max);
        Trace(next, prev.fetched + [next])
      else
        prev
  }

  /** Events with any other name leave the datasource as it was and fetch nothing. */
  lemma {:induction false} ReplayIgnoresOtherEvents(ds: Datasource, es: seq<DashboardEvent>)
    requires forall i :: 0 <= i < |es| ==> es[i].name != AfterSetExtremes
    ensures Replay(ds, es) == Trace(ds, [])
    decreases |es|
  {
    if es != [] {
      ReplayIgnoresOtherEvents(ds, es[..|es| - 1]);
    }
  }

  /**
   Rewriting after any admissible history gives the same datasource as
   rewriting the initial one: a new axis range overrides all earlier ones.
   */
  lemma {:induction false} ApplyAfterReplay(ds: Datasource, es: seq<DashboardEvent>, min: Value, max: Value)
    requires HasFirstAggregator(ds.options)
    ensures ApplyExtremes(Replay(ds, es).datasource, min, max) == ApplyExtremes(ds, min, max)
    decreases |es|
  {
    if es != [] {
      var prefix := es[..|es| - 1];
      var e := es[|es| - 1];
      ApplyAfterReplay(ds, prefix, min, max);
      if e.name == AfterSetExtremes {
        ApplyExtremesLastWins(Replay(ds, prefix).datasource, e.args.min, e.args.max, min, max);
      }
    }
  }

  /**
   The datasource after a history depends only on the initial datasource and
   the last "after-set-extremes" event of the history.
   */
  lemma {:induction false} ReplayLastMatchWins(ds: Datasource, es: seq<DashboardEvent>, i: nat)
    requires i < |es| && es[i].name == AfterSetExtremes
    requires forall j :: i < j < |es| ==> es[j].name != AfterSetExtremes
    requires HasFirstAggregator(ds.options)
    ensures Replay(ds, es).datasource == ApplyExtremes(ds, es[i].args.min, es[i].args.max)
    decreases |es|
  {
    var prefix := es[..|es| - 1];
    if i == |es| - 1 {
      ApplyAfterReplay(ds, prefix, es[i].args.min, es[i].args.max);
    } else {
      ReplayLastMatchWins(ds, prefix, i);
    }
  }

  /** Appending one event to a history is one more run of the handler. */
  lemma ReplayStep(ds: Datasource, es: seq<DashboardEvent>, e: DashboardEvent)
    requires Admissible(ds, es)
    requires e.name == AfterSetExtremes ==> HasFirstAggregator(Replay(ds, es).datasource.options)
    ensures Admissible(ds, es + [e])
    ensures Replay(ds, es + [e]) ==
      if e.name == AfterSetExtremes then
        var next := ApplyExtremes(Replay(ds, es).datasource, e.args.min, e.args.max);
        Trace(next, Replay(ds, es).fetched + [next])
      else Replay(ds, es)
  {
    assert (es + [e])[..|es|] == es;
    if e.name == AfterSetExtremes && !HasFirstAggregator(ds.options) {
      ReplayIgnoresOtherEvents(ds, es);
    }
  }

  /** The per-widget renderer scope: its datasource, the error flag and the fetch log. */
  class WidgetRenderer {
    var datasource: Datasource
    var errorLoading: bool
    /** Every datasource this handler passes to `fetch`, in call order; fetches the base controller makes on its own are not recorded. */
    ghost var fetched: seq<Datasource>
    /** The datasource the widget was set up with, and the events handled since. */
    ghost const initial: Datasource
    ghost var events: seq<DashboardEvent>

    /** The current state is the handler replayed over the events received so far. */
    ghost predicate Valid()
      reads this
    {
      && Admissible(initial, events)
      && Replay(initial, events) == Trace(datasource, fetched)
    }

    constructor (ds: Datasource)
      ensures Valid()
      ensures datasource == ds && initial == ds && !errorLoading
      ensures fetched == [] && events == []
    {
      datasource := ds;
      errorLoading := false;
      fetched := [];
      initial := ds;
      events := [];
    }

    /** The base controller's `fetch`: recorded in the log, nothing else modelled. */
    method Fetch(ds: Datasource)
      modifies this`fetched
      ensures fetched == old(fetched) + [ds]
    {
      fetched := fetched + [ds];
    }

    /** The `px-dashboard-event` handler. */
    method OnDashboardEvent(name: string, args: Extremes)
      requires Valid()
      requires name == AfterSetExtremes ==> HasFirstAggregator(datasource.options)
      modifies this
      ensures Valid()
      ensures events == old(events) + [DashboardEvent(name, args)]
      ensures errorLoading == old(errorLoading)
      ensures name != AfterSetExtremes ==> datasource == old(datasource) && fetched == old(fetched)
      ensures name == AfterSetExtremes ==>
                && datasource == ApplyExtremes(old(datasource), args.min, args.max)
                && fetched == old(fetched) + [datasource]
    {
      ReplayStep(initial, events, DashboardEvent(name, args));
      events := events + [DashboardEvent(name, args)];
      if name != AfterSetExtremes {
        return;
      }
      var options := datasource.options;
      options := options[StartAbsolute := args.min];
      options := options[EndAbsolute := args.max];
      options := options[CacheTime := Num(CacheTimeMs)];
      options := options[MetricsKey := MetricList(SetFirstSampling(options[MetricsKey].metrics, MinuteSampling))];
      options := options - {StartRelative};
      options := options - {EndRelative};
      datasource := datasource.(options := options);
      Fetch(datasource);
    }

    /** `errorCallback`: raises the error flag, whatever it was. */
    method ErrorCallback()
      requires Valid()
      modifies this`errorLoading
      ensures Valid()
      ensures errorLoading
      ensures datasource == old(datasource) && fetched == old(fetched) && events == old(events)
    {
      errorLoading := true;
    }
  }

  /**
   A client: a "cpu" query on a relative one-hour window receives an x-axis
   change to [1000, 2000], then an unrelated event, then the error callback.
   */
  method AxisChangeScenario() {
    var metric := Metric("cpu.load", [Aggregator("avg", None)]);
    var ds := Datasource("cpu", map[StartRelative := Text("1h"), MetricsKey := MetricList([metric])]);
    var w := new WidgetRenderer(ds);
    w.OnDashboardEvent(AfterSetExtremes, Extremes(Num(1000), Num(2000)));
    assert w.datasource.options[StartAbsolute] == Num(1000);
    assert w.datasource.options[EndAbsolute] == Num(2000);
    assert w.datasource.options[CacheTime] == Num(1000);
    assert StartRelative !in w.datasource.options && EndRelative !in w.datasource.options;
    assert w.datasource.options[MetricsKey].metrics[0].aggregators[0].sampling == Some(Sampling("minutes", "1"));
    assert |w.fetched| == 1 && w.fetched[0] == w.datasource;
    var after := w.datasource;
    w.OnDashboardEvent("tag-clicked", Extremes(Num(0), Num(1)));
    assert w.datasource == after && |w.fetched| == 1;
    w.ErrorCallback();
    assert w.errorLoading && w.datasource == after;
  }
}
