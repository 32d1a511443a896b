# Time-series widget renderer: verified model

This project models `TimeseriesWidgetRendererCtrl`. It is the example custom
widget-renderer controller of the Predix seed dashboard, and it wraps one
time-series widget and that widget's datasource. The controller has two pieces
of live logic:

- **The `px-dashboard-event` handler.** It runs only for the sub-event
  `after-set-extremes`, which means the chart's x-axis range changed. It then
  rewrites the datasource's option table in place: it writes
  `start_absolute`/`end_absolute` from the event payload, sets `cache_time` to
  1000, and sets the sampling of the first aggregator of the first metric to
  `{unit: 'minutes', value: '1'}`. It deletes `start_relative` and
  `end_relative`. Last, it calls the base controller's `fetch` with the
  rewritten datasource.
- **`errorCallback`.** It sets `errorLoading`.

The project has two modules:

- `Datasources` (`datasource.dfy`) holds the value model of a datasource and
  the pure rewrite `ApplyExtremes`. The option table is a
  `map<string, Value>`. A deleted key is absent from the map. That is not the
  same as a key that is present with `Null` or `Undefined`. `metrics` is an
  option like any other, as in the JavaScript. It holds an ordered list of
  metrics, and each metric holds an ordered list of aggregators whose
  sampling is optional.
- `TimeseriesWidgetRenderer` (`widget_renderer.dfy`) holds the class
  `WidgetRenderer`, which has the fields `datasource`, `errorLoading` and a
  ghost log `fetched`. `OnDashboardEvent` mutates the option table step by
  step in the order of the JavaScript, then calls `Fetch`. `ErrorCallback`
  sets the flag.

The class keeps the datasource it started with and the events it has received
as ghost state. Its invariant `Valid()` states that the current datasource
and fetch log are exactly `Replay` of the handler over that history. The
lemmas about `Replay` are therefore facts about every reachable renderer
state.

JavaScript throws a TypeError when `options.metrics[0].aggregators[0]` does
not exist. The model does not model that exception. Instead, the handler has
a precondition that applies only to matching events. `Replay` has the same
condition (`Admissible`): either the first aggregator exists, or no event in
the history matches.

The handler writes the option keys directly. It does not check the metric
index, and it does nothing about late or out-of-order responses.
`AxisChangeScenario` is a client method: a "cpu" query on a one-hour relative
window with one metric receives an x-axis change, an unrelated event, and the
error callback.

## Model

| member | source | states |
|---|---|---|
| Datasources.SetFirstSampling | public/scripts/controllers/timeseries-widget-renderer.js:67-70 | only `metrics[0].aggregators[0].sampling` changes, to the given sampling; the number and order of metrics and of the first metric's aggregators are kept, and every other metric and aggregator is equal to before |
| Datasources.SetFirstSamplingTwice | public/scripts/controllers/timeseries-widget-renderer.js:67-70 | assigning sampling `s` and then `t` gives the same metrics list as assigning `t` alone |
| Datasources.ApplyExtremes | public/scripts/controllers/timeseries-widget-renderer.js:63-72 | after the rewrite: `start_absolute == min`, `end_absolute == max`, `cache_time == 1000`, `start_relative` and `end_relative` are not keys, and the first aggregator of the first metric has one-minute sampling with nothing else in the metrics changed; the key set is the old one plus the three written keys minus the two deleted ones; every key outside the six touched ones keeps its value; the identifier is kept |
| Datasources.ApplyExtremesLastWins | public/scripts/controllers/timeseries-widget-renderer.js:63-72 | a rewrite with new bounds after an earlier rewrite gives the same datasource as the new rewrite alone |
| Datasources.ApplyExtremesIdempotent | public/scripts/controllers/timeseries-widget-renderer.js:63-72 | handling the same axis-range change twice gives the same datasource as handling it once |
| Datasources.ApplyExtremesWindowExclusive | public/scripts/controllers/timeseries-widget-renderer.js:63-72 | after the rewrite the query has an absolute window and no relative window, whatever it had before |
| TimeseriesWidgetRenderer.MatchCount | public/scripts/controllers/timeseries-widget-renderer.js:57-59 | the number of events the handler acts on is zero exactly when no event is named `after-set-extremes` |
| TimeseriesWidgetRenderer.Replay | public/scripts/controllers/timeseries-widget-renderer.js:55-76 | over any history, one fetch is issued per matching event; the last fetched datasource is the current one, so the fetch comes after all mutations; every fetched datasource is on an absolute window only; the first metric keeps its first aggregator |
| TimeseriesWidgetRenderer.ReplayIgnoresOtherEvents | public/scripts/controllers/timeseries-widget-renderer.js:57-59 | a history of events with other names leaves the datasource unchanged and fetches nothing |
| TimeseriesWidgetRenderer.ApplyAfterReplay | public/scripts/controllers/timeseries-widget-renderer.js:55-76 | a new axis-range change after any history gives the same datasource as the same change applied to the initial datasource |
| TimeseriesWidgetRenderer.ReplayLastMatchWins | public/scripts/controllers/timeseries-widget-renderer.js:55-76 | the datasource after a history is the rewrite of the initial datasource with the bounds of the last `after-set-extremes` event |
| TimeseriesWidgetRenderer.ReplayStep | public/scripts/controllers/timeseries-widget-renderer.js:55-76 | receiving one more event either rewrites the datasource and appends it to the fetch log once (matching name) or changes nothing (any other name) |
| TimeseriesWidgetRenderer.WidgetRenderer.Fetch | public/scripts/controllers/timeseries-widget-renderer.js:75 | the base controller's `fetch` appends the datasource it is given to the fetch log and changes nothing else |
| TimeseriesWidgetRenderer.WidgetRenderer.OnDashboardEvent | public/scripts/controllers/timeseries-widget-renderer.js:55-76 | for any other event name, the datasource, `errorLoading` and the fetch log are unchanged; for `after-set-extremes`, the datasource becomes `ApplyExtremes` of the old one and the fetch log grows by exactly that rewritten datasource; `errorLoading` is never touched; the replay invariant is kept |
| TimeseriesWidgetRenderer.WidgetRenderer.ErrorCallback | public/scripts/controllers/timeseries-widget-renderer.js:78-80 | `errorLoading` becomes true whatever its prior value, which makes a second call change nothing; the datasource, fetch log and event history are unchanged |

## Left out

- The base `WidgetRendererController` (mixed in at timeseries-widget-renderer.js:118) is not part of this model. Its `fetch` (HTTP request, promises, response mapping, loading and error transitions, ordering of responses) is modelled only as an append to a ghost log.
- Aliasing: JavaScript passes the datasource object to `fetch` by reference. The model records a snapshot of its value, so a later mutation seen through a reference the base controller kept is not captured.
- Shared metric and aggregator objects: metrics and aggregators are plain values, so the model assumes no metric or aggregator object sits at two places at once, as with data parsed from JSON. If `metrics[0]` or `metrics[0].aggregators[0]` were shared with another index, the JavaScript assignment at line 67 would change that entry too, and the promise of `SetFirstSampling` and `ApplyExtremes` that every other metric and aggregator is unchanged would not hold.
- The datasource's other properties (its `url` and `method`, mentioned at line 61) appear only as the unchanged `id`.
- The TypeError thrown when `options.metrics`, `metrics[0]` or `metrics[0].aggregators[0]` is missing. The model turns it into a precondition of the matching path, as the code gives callers no defined behaviour there. The partial mutation JavaScript performs before throwing is therefore not modelled.
- JavaScript's dynamic values: payload bounds and option values are a closed `Value` type. Numbers are integers, and metrics and aggregators carry only a name besides the fields the handler uses. Their other properties stay untouched in the JavaScript and simply do not appear here.
- The commented-out `beforeRequest`, `afterResponse` and `my-custom-event` handlers (lines 81-114): not live code.
- Angular plumbing: `define` module loading, controller registration, and `$scope.$on` dispatch. Event delivery is modelled as calls to `OnDashboardEvent` in order, one call per event.
