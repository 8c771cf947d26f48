# ZooKeeper Prometheus metrics provider, in Dafny

This project models `PrometheusMetricsProvider`, the ZooKeeper metrics
provider that publishes ZooKeeper's metrics through the Prometheus Java
client. It covers four parts of the provider.

- **The root context.** The root `Context` is the one metrics registry the
  provider hands out. It keeps eight name-to-wrapper maps: gauges, gauge
  sets, counters, counter sets, and the basic and advanced summaries and
  summary sets. It offers their get-or-create, register and unregister
  operations.
- **The metric wrappers.** Each wrapper forwards to a backend collector
  object registered in a shared Prometheus `CollectorRegistry`: counter
  `add`/`get`, gauge and gauge-set `sample`/`unregister`, and summary `add`.
- **The read path.**
  - `sampleGauges` pushes every gauge callback's value, then every gauge
    set's map, into the backend.
  - `dump` samples the gauges, then hands a sink one (key, value) pair per
    sample of every registered collector. It builds the keys with
    `buildKeyForDump`.
- **The rotation tick.** The periodic summary-rotation task rotates every
  summary sketch: summaries, summary sets, basic summaries, then basic
  summary sets.

The model is built in layers:

| File | What it holds |
|---|---|
| `prometheus_client.dfy` | What the provider observes of the Prometheus client, as values: collectors with one child series per label-value combination, `inc`/`set`/`observe`/`rotate`, samples, and the registry's name table. |
| `collector_registry.dfy` | `CollectorRegistry`, the mutable registry object shared by the context and the wrappers. |
| `metrics.dfy` | The wrappers, with their methods over the registry. Each context operation as a step function from one `World` to the next. A `World` is the eight maps plus the registry state. |
| `context.dfy` | Class `Context`, whose eight map fields are updated in place by methods that each perform one step. |
| `metrics_properties.dfy`, `metrics_laws.dfy` | The invariant every step keeps, and the laws of each operation. |
| `wrapper_laws.dfy` | What sampling and counting do to the backend readings. |
| `dump_key.dfy` | `buildKeyForDump` and the key format. |
| `read_path.dfy` | Specifications of one sampling pass, one rotation tick and one dump. |
| `provider.dfy` | Class `PrometheusMetricsProvider`, whose loops over the maps are proved against those specifications. |
| `dump_laws.dfy` | What a successful dump shows for each metric. |

Under the invariant (`Metrics.Inv`):
- every wrapper wraps the backend object registered under its name;
- that object was built as its map builds them (its kind, its quantiles, and
  its `key` label or no label);
- a name is held by at most one map;
- no two entries share a backend object.

The model has no I/O. Two things are parameters instead:
- Callbacks are identities (`Callback`). What a callback does when it is
  read is a function parameter: `read` for gauges, `readSet` for gauge sets.
  It may return a value, return null, or throw.
- The sketch's quantile estimate is a parameter (`Estimator`).

## Model

| member | source | states |
|---|---|---|
| ContextImpl.Context.constructor | zookeeper-metrics-providers/zookeeper-prometheus-metrics/src/main/java/org/apache/zookeeper/metrics/prometheus/PrometheusMetricsProvider.java:265-274 | A new context has all eight maps empty and satisfies the invariant over the registry it is given. |
| ContextImpl.Context.GetContext | zookeeper-metrics-providers/zookeeper-prometheus-metrics/src/main/java/org/apache/zookeeper/metrics/prometheus/PrometheusMetricsProvider.java:277-280 | There is no hierarchy of contexts: every name gives back this context. |
| ContextImpl.Context.GetCounter | zookeeper-metrics-providers/zookeeper-prometheus-metrics/src/main/java/org/apache/zookeeper/metrics/prometheus/PrometheusMetricsProvider.java:283-285 | Updates the maps and registry in place exactly as the `Metrics.GetCounter` step does, and keeps the invariant. |
| ContextImpl.Context.GetCounterSet | zookeeper-metrics-providers/zookeeper-prometheus-metrics/src/main/java/org/apache/zookeeper/metrics/prometheus/PrometheusMetricsProvider.java:288-291 | Performs the `Metrics.GetCounterSet` step in place, including the null-name refusal, and keeps the invariant. |
| ContextImpl.Context.RegisterGauge | zookeeper-metrics-providers/zookeeper-prometheus-metrics/src/main/java/org/apache/zookeeper/metrics/prometheus/PrometheusMetricsProvider.java:301-305 | Performs the `Metrics.RegisterGauge` step in place (the `compute` that reuses the previous wrapper's backend gauge), and keeps the invariant. |
| ContextImpl.Context.UnregisterGauge | zookeeper-metrics-providers/zookeeper-prometheus-metrics/src/main/java/org/apache/zookeeper/metrics/prometheus/PrometheusMetricsProvider.java:308-313 | Performs the `Metrics.UnregisterGauge` step in place: removes the wrapper, then unregisters its backend gauge. Keeps the invariant. |
| ContextImpl.Context.RegisterGaugeSet | zookeeper-metrics-providers/zookeeper-prometheus-metrics/src/main/java/org/apache/zookeeper/metrics/prometheus/PrometheusMetricsProvider.java:316-322 | Performs the `Metrics.RegisterGaugeSet` step in place, with both null checks and their messages, and keeps the invariant. |
| ContextImpl.Context.UnregisterGaugeSet | zookeeper-metrics-providers/zookeeper-prometheus-metrics/src/main/java/org/apache/zookeeper/metrics/prometheus/PrometheusMetricsProvider.java:325-332 | Performs the `Metrics.UnregisterGaugeSet` step in place, and keeps the invariant. |
| ContextImpl.Context.GetSummary | zookeeper-metrics-providers/zookeeper-prometheus-metrics/src/main/java/org/apache/zookeeper/metrics/prometheus/PrometheusMetricsProvider.java:335-351 | Performs the `Metrics.GetSummary` step in place: get-or-create in the map of the level, refusing a name the other level holds. Keeps the invariant. |
| ContextImpl.Context.GetSummarySet | zookeeper-metrics-providers/zookeeper-prometheus-metrics/src/main/java/org/apache/zookeeper/metrics/prometheus/PrometheusMetricsProvider.java:354-370 | Performs the `Metrics.GetSummarySet` step in place, and keeps the invariant. |
| MetricsProperties.GetCounterKeepsInv | zookeeper-metrics-providers/zookeeper-prometheus-metrics/src/main/java/org/apache/zookeeper/metrics/prometheus/PrometheusMetricsProvider.java:283-285 | `getCounter` keeps the invariant, for every name including null. |
| MetricsProperties.GetCounterSetKeepsInv | zookeeper-metrics-providers/zookeeper-prometheus-metrics/src/main/java/org/apache/zookeeper/metrics/prometheus/PrometheusMetricsProvider.java:288-291 | `getCounterSet` keeps the invariant. |
| MetricsProperties.RegisterGaugeKeepsInv | zookeeper-metrics-providers/zookeeper-prometheus-metrics/src/main/java/org/apache/zookeeper/metrics/prometheus/PrometheusMetricsProvider.java:301-305 | `registerGauge` keeps the invariant, both when it replaces a callback and when it registers a new gauge. |
| MetricsProperties.UnregisterGaugeKeepsInv | zookeeper-metrics-providers/zookeeper-prometheus-metrics/src/main/java/org/apache/zookeeper/metrics/prometheus/PrometheusMetricsProvider.java:308-313 | `unregisterGauge` keeps the invariant. |
| MetricsProperties.RegisterGaugeSetKeepsInv | zookeeper-metrics-providers/zookeeper-prometheus-metrics/src/main/java/org/apache/zookeeper/metrics/prometheus/PrometheusMetricsProvider.java:316-322 | `registerGaugeSet` keeps the invariant. |
| MetricsProperties.UnregisterGaugeSetKeepsInv | zookeeper-metrics-providers/zookeeper-prometheus-metrics/src/main/java/org/apache/zookeeper/metrics/prometheus/PrometheusMetricsProvider.java:325-332 | `unregisterGaugeSet` keeps the invariant. |
| MetricsProperties.GetSummaryKeepsInv | zookeeper-metrics-providers/zookeeper-prometheus-metrics/src/main/java/org/apache/zookeeper/metrics/prometheus/PrometheusMetricsProvider.java:335-351 | `getSummary` keeps the invariant at both levels. |
| MetricsProperties.GetSummarySetKeepsInv | zookeeper-metrics-providers/zookeeper-prometheus-metrics/src/main/java/org/apache/zookeeper/metrics/prometheus/PrometheusMetricsProvider.java:354-370 | `getSummarySet` keeps the invariant at both levels. |
| MetricsProperties.InitialInv | zookeeper-metrics-providers/zookeeper-prometheus-metrics/src/main/java/org/apache/zookeeper/metrics/prometheus/PrometheusMetricsProvider.java:265-274 | Empty maps over a consistent registry satisfy the invariant. |
| MetricsProperties.FamiliesExclusive | zookeeper-metrics-providers/zookeeper-prometheus-metrics/src/main/java/org/apache/zookeeper/metrics/prometheus/PrometheusMetricsProvider.java:335-370 | Under the invariant a name is held by at most one of the eight maps. This includes the basic and advanced summary maps, which the source keeps apart explicitly. |
| MetricsProperties.InnersDistinct | zookeeper-metrics-providers/zookeeper-prometheus-metrics/src/main/java/org/apache/zookeeper/metrics/prometheus/PrometheusMetricsProvider.java:265-274 | Under the invariant, two entries that wrap the same backend object are the same entry of the same map. |
| MetricsLaws.GetCounterLaw | zookeeper-metrics-providers/zookeeper-prometheus-metrics/src/main/java/org/apache/zookeeper/metrics/prometheus/PrometheusMetricsProvider.java:283-285 | Returns the existing counter and changes nothing. Otherwise it registers exactly one new counter; this succeeds iff the name is free in the registry, and leaves the other maps alone. Asking again returns the same counter. |
| MetricsLaws.GetCounterSetLaw | zookeeper-metrics-providers/zookeeper-prometheus-metrics/src/main/java/org/apache/zookeeper/metrics/prometheus/PrometheusMetricsProvider.java:288-291 | The same get-or-create law for counter sets. The backend counter is labelled `key`. |
| MetricsLaws.GetSummaryLaw | zookeeper-metrics-providers/zookeeper-prometheus-metrics/src/main/java/org/apache/zookeeper/metrics/prometheus/PrometheusMetricsProvider.java:335-351 | A summary already filed at the level is returned and nothing changes. Otherwise the call succeeds iff the name is free in the registry (a summary filed at the other level holds its name too). It then files one new summary, registers one new sketch with the quantiles of the level, and leaves the other maps alone. Asking again returns the same summary. An error changes nothing. |
| MetricsLaws.GetSummarySetLaw | zookeeper-metrics-providers/zookeeper-prometheus-metrics/src/main/java/org/apache/zookeeper/metrics/prometheus/PrometheusMetricsProvider.java:354-370 | The same get-or-create law for summary sets: the existing set is returned unchanged, a new one succeeds iff the name is free, and it adds exactly one sketch labelled `key`, with the other maps unchanged. |
| MetricsLaws.SummaryLevelsExclusive | zookeeper-metrics-providers/zookeeper-prometheus-metrics/src/main/java/org/apache/zookeeper/metrics/prometheus/PrometheusMetricsProvider.java:335-370 | A name held at one level is refused at the other. The error is `IllegalArgumentException` with the source's exact message, and state is unchanged. |
| MetricsLaws.RegisterGaugeLaw | zookeeper-metrics-providers/zookeeper-prometheus-metrics/src/main/java/org/apache/zookeeper/metrics/prometheus/PrometheusMetricsProvider.java:301-305 | Re-registering a name replaces only the callback and keeps the backend gauge and registry. Registering a new name succeeds iff the name is free in the registry, and then adds one backend gauge. |
| MetricsLaws.UnregisterGaugeLaw | zookeeper-metrics-providers/zookeeper-prometheus-metrics/src/main/java/org/apache/zookeeper/metrics/prometheus/PrometheusMetricsProvider.java:308-313 | Always returns normally. It removes exactly that gauge and exactly its registry name. Every other name keeps its collector, no collector object changes, and the other maps are unchanged. An unknown name changes nothing. |
| MetricsLaws.GaugeRegisterUnregister | zookeeper-metrics-providers/zookeeper-prometheus-metrics/src/main/java/org/apache/zookeeper/metrics/prometheus/PrometheusMetricsProvider.java:301-313 | Registering a gauge under a free name and then unregistering it restores the maps and the registry's name table. |
| MetricsLaws.RegisterGaugeSetLaw | zookeeper-metrics-providers/zookeeper-prometheus-metrics/src/main/java/org/apache/zookeeper/metrics/prometheus/PrometheusMetricsProvider.java:316-322 | A null gauge set is refused with the source's message. Re-registering replaces the callback only. A new name succeeds iff it is free, and then files one wrapper, registers exactly one new gauge labelled `key`, and leaves the other maps alone. |
| MetricsLaws.UnregisterGaugeSetLaw | zookeeper-metrics-providers/zookeeper-prometheus-metrics/src/main/java/org/apache/zookeeper/metrics/prometheus/PrometheusMetricsProvider.java:325-332 | Removes exactly that gauge set and its registry name. Every other name keeps its collector, no collector object changes, and the other maps are unchanged. An unknown name changes nothing. |
| MetricsLaws.NullNamesRefused | zookeeper-metrics-providers/zookeeper-prometheus-metrics/src/main/java/org/apache/zookeeper/metrics/prometheus/PrometheusMetricsProvider.java:283-370 | Each of the eight operations refuses a null name with `NullPointerException`, with the source's message where it has one, and changes nothing. |
| Metrics.Quantiles | zookeeper-metrics-providers/zookeeper-prometheus-metrics/src/main/java/org/apache/zookeeper/metrics/prometheus/PrometheusMetricsProvider.java:497-510 | BASIC measures the median only. ADVANCED measures exactly three quantiles: the median, the 90th and the 99th percentile. |
| Metrics.PrometheusCounter.Add | zookeeper-metrics-providers/zookeeper-prometheus-metrics/src/main/java/org/apache/zookeeper/metrics/prometheus/PrometheusMetricsProvider.java:387-393 | Only the wrapped counter changes, by the client's `inc`. A refused negative delta is swallowed, and the registry stays consistent. |
| Metrics.PrometheusCounter.Get | zookeeper-metrics-providers/zookeeper-prometheus-metrics/src/main/java/org/apache/zookeeper/metrics/prometheus/PrometheusMetricsProvider.java:396-402 | Returns the backend counter's value, narrowed to a `long`. |
| Metrics.PrometheusLabelledCounter.Add | zookeeper-metrics-providers/zookeeper-prometheus-metrics/src/main/java/org/apache/zookeeper/metrics/prometheus/PrometheusMetricsProvider.java:419-425 | Only the wrapped counter's `key` series changes. A null key or a negative delta is swallowed. |
| Metrics.PrometheusGaugeWrapper.Sample | zookeeper-metrics-providers/zookeeper-prometheus-metrics/src/main/java/org/apache/zookeeper/metrics/prometheus/PrometheusMetricsProvider.java:447-450 | Only the wrapped gauge changes, to what `SampleGauge` gives; a throwing or null callback propagates. |
| Metrics.PrometheusGaugeWrapper.Unregister | zookeeper-metrics-providers/zookeeper-prometheus-metrics/src/main/java/org/apache/zookeeper/metrics/prometheus/PrometheusMetricsProvider.java:452-454 | The registry afterwards is the client's `unregister` of the wrapped gauge. |
| Metrics.PrometheusLabelledGaugeWrapper.Sample | zookeeper-metrics-providers/zookeeper-prometheus-metrics/src/main/java/org/apache/zookeeper/metrics/prometheus/PrometheusMetricsProvider.java:480-483 | The loop over the callback's map sets series key by key. It ends exactly where `SetEntries` does, and stops at the first null key with its exception. |
| Metrics.PrometheusLabelledGaugeWrapper.Unregister | zookeeper-metrics-providers/zookeeper-prometheus-metrics/src/main/java/org/apache/zookeeper/metrics/prometheus/PrometheusMetricsProvider.java:485-487 | The registry afterwards is the client's `unregister` of the wrapped gauge. |
| Metrics.PrometheusSummary.Add | zookeeper-metrics-providers/zookeeper-prometheus-metrics/src/main/java/org/apache/zookeeper/metrics/prometheus/PrometheusMetricsProvider.java:513-519 | Only the wrapped sketch changes, by `observe`. Failures are swallowed. |
| Metrics.PrometheusLabelledSummary.Add | zookeeper-metrics-providers/zookeeper-prometheus-metrics/src/main/java/org/apache/zookeeper/metrics/prometheus/PrometheusMetricsProvider.java:547-553 | Only the wrapped sketch's `key` series changes. A null key is swallowed. |
| PrometheusClient.IncSemantics | zookeeper-metrics-providers/zookeeper-prometheus-metrics/src/main/java/org/apache/zookeeper/metrics/prometheus/PrometheusMetricsProvider.java:387-393 | `inc` succeeds iff the keys match the label names, none is null, and the amount is non-negative. It then adds to exactly its own series; on failure nothing moves. |
| PrometheusClient.SetSemantics | zookeeper-metrics-providers/zookeeper-prometheus-metrics/src/main/java/org/apache/zookeeper/metrics/prometheus/PrometheusMetricsProvider.java:447-450 | `set` succeeds iff the keys are well formed. It then replaces exactly its own series. |
| PrometheusClient.ObserveSemantics | zookeeper-metrics-providers/zookeeper-prometheus-metrics/src/main/java/org/apache/zookeeper/metrics/prometheus/PrometheusMetricsProvider.java:513-519 | `observe` appends the value to exactly its own series' observations, or changes nothing with `IllegalArgumentException`. |
| PrometheusClient.ReadAfterLabels | zookeeper-metrics-providers/zookeeper-prometheus-metrics/src/main/java/org/apache/zookeeper/metrics/prometheus/PrometheusMetricsProvider.java:419-425 | Creating a series with `labels(key)` changes no reading: a new series reads as zero, as an absent one does. |
| WrapperLaws.SampleGaugeLaw | zookeeper-metrics-providers/zookeeper-prometheus-metrics/src/main/java/org/apache/zookeeper/metrics/prometheus/PrometheusMetricsProvider.java:447-450 | A gauge sample succeeds iff there is a callback and it returns. The gauge then reads the returned value, with zero for null, and other series are untouched. A failure leaves the gauge as it was. |
| WrapperLaws.SetEntriesLaw | zookeeper-metrics-providers/zookeeper-prometheus-metrics/src/main/java/org/apache/zookeeper/metrics/prometheus/PrometheusMetricsProvider.java:480-483 | Setting a map's entries succeeds iff no key is null. Each key's series then reads the key's last value, with zero for null; other series are unchanged. |
| WrapperLaws.SetEntriesCreatesSeries | zookeeper-metrics-providers/zookeeper-prometheus-metrics/src/main/java/org/apache/zookeeper/metrics/prometheus/PrometheusMetricsProvider.java:480-483 | After a successful pass every key of the map has a series. |
| WrapperLaws.SetEntriesKeepsSeries | zookeeper-metrics-providers/zookeeper-prometheus-metrics/src/main/java/org/apache/zookeeper/metrics/prometheus/PrometheusMetricsProvider.java:480-483 | A pass, even one that fails, keeps every series that existed. |
| WrapperLaws.SampleGaugeSetLaw | zookeeper-metrics-providers/zookeeper-prometheus-metrics/src/main/java/org/apache/zookeeper/metrics/prometheus/PrometheusMetricsProvider.java:480-483 | A gauge-set sample succeeds iff the callback returns a map without a null key. A throwing or null-returning callback changes nothing. |
| WrapperLaws.AddAllLaw | zookeeper-metrics-providers/zookeeper-prometheus-metrics/src/main/java/org/apache/zookeeper/metrics/prometheus/PrometheusMetricsProvider.java:387-425 | After any sequence of `add`s, a counter series has grown by exactly the sum of the non-negative deltas. Refused adds and other series do not move. |
| WrapperLaws.CounterScenario | zookeeper-metrics-providers/zookeeper-prometheus-metrics/src/main/java/org/apache/zookeeper/metrics/prometheus/PrometheusMetricsProvider.java:387-402 | A fresh counter after `add(5)`, `add(3)`, `add(-1)` reads 8. |
| DumpKeys.BuildKeyForDump | zookeeper-metrics-providers/zookeeper-prometheus-metrics/src/main/java/org/apache/zookeeper/metrics/prometheus/PrometheusMetricsProvider.java:210-227 | The string-builder loop builds exactly `DumpKey`: the name, then `{l1="v1",l2="v2"}` when there are labels. |
| DumpKeys.DumpKeyIsBareNameIffUnlabelled | zookeeper-metrics-providers/zookeeper-prometheus-metrics/src/main/java/org/apache/zookeeper/metrics/prometheus/PrometheusMetricsProvider.java:210-227 | The key is the bare metric name iff the sample has no labels. |
| DumpKeys.DumpKeyOneLabel | zookeeper-metrics-providers/zookeeper-prometheus-metrics/src/main/java/org/apache/zookeeper/metrics/prometheus/PrometheusMetricsProvider.java:210-227 | The key of a one-label sample is `name{label="value"}`. |
| DumpKeys.DumpKeySeparatesSeries | zookeeper-metrics-providers/zookeeper-prometheus-metrics/src/main/java/org/apache/zookeeper/metrics/prometheus/PrometheusMetricsProvider.java:210-227 | Two series of a one-label metric with different label values get different keys. |
| ReadPath.SeriesSampled | zookeeper-metrics-providers/zookeeper-prometheus-metrics/src/main/java/org/apache/zookeeper/metrics/prometheus/PrometheusMetricsProvider.java:198-208 | A counter or gauge has one sample per series: the series' labels and value under the collector's name. |
| ReadPath.UnlabelledInDump | zookeeper-metrics-providers/zookeeper-prometheus-metrics/src/main/java/org/apache/zookeeper/metrics/prometheus/PrometheusMetricsProvider.java:198-208 | A dump shows an unlabelled counter or gauge as (name, value). |
| ReadPath.LabelledInDump | zookeeper-metrics-providers/zookeeper-prometheus-metrics/src/main/java/org/apache/zookeeper/metrics/prometheus/PrometheusMetricsProvider.java:198-227 | A dump shows each series of a `key`-labelled counter or gauge as (`name{key="k"}`, value). |
| Provider.PrometheusMetricsProvider.constructor | zookeeper-metrics-providers/zookeeper-prometheus-metrics/src/main/java/org/apache/zookeeper/metrics/prometheus/PrometheusMetricsProvider.java:104-112 | The defaults are host `0.0.0.0`, port 7000, JVM info exported, a 1000 ms worker shutdown timeout and a 60 s rotation period. The root context is empty and valid. |
| Provider.PrometheusMetricsProvider.GetRootContext | zookeeper-metrics-providers/zookeeper-prometheus-metrics/src/main/java/org/apache/zookeeper/metrics/prometheus/PrometheusMetricsProvider.java:169-171 | Always the same root context. |
| Provider.PrometheusMetricsProvider.SampleEachGauge | zookeeper-metrics-providers/zookeeper-prometheus-metrics/src/main/java/org/apache/zookeeper/metrics/prometheus/PrometheusMetricsProvider.java:233-235 | The loop over the gauges returns normally iff every gauge can be read, and then every gauge has been sampled. Only gauges' backend objects move, and the invariant is kept. |
| Provider.PrometheusMetricsProvider.SampleEachGaugeSet | zookeeper-metrics-providers/zookeeper-prometheus-metrics/src/main/java/org/apache/zookeeper/metrics/prometheus/PrometheusMetricsProvider.java:237-238 | The same for the gauge sets: it returns normally iff every gauge set's map can be set, and then every one has been sampled. |
| Provider.PrometheusMetricsProvider.SampleGauges | zookeeper-metrics-providers/zookeeper-prometheus-metrics/src/main/java/org/apache/zookeeper/metrics/prometheus/PrometheusMetricsProvider.java:233-239 | `SampledFrom`: only gauge objects move, and gauge sets are untouched while a gauge fails. The pass returns normally iff all are readable, and then each has been sampled. |
| Provider.SamplingComposes | zookeeper-metrics-providers/zookeeper-prometheus-metrics/src/main/java/org/apache/zookeeper/metrics/prometheus/PrometheusMetricsProvider.java:233-239 | The gauge pass followed by the gauge-set pass makes one `sampleGauges`, since the two maps wrap disjoint objects. |
| Provider.PrometheusMetricsProvider.RotateEach | zookeeper-metrics-providers/zookeeper-prometheus-metrics/src/main/java/org/apache/zookeeper/metrics/prometheus/PrometheusMetricsProvider.java:571-574 | One line of the tick rotates each backend object of one summary map exactly once, and nothing else. |
| Provider.PrometheusMetricsProvider.RotateSummaries | zookeeper-metrics-providers/zookeeper-prometheus-metrics/src/main/java/org/apache/zookeeper/metrics/prometheus/PrometheusMetricsProvider.java:568-578 | A tick rotates every sketch of the four summary maps once, in the order summaries, summary sets, basic summaries, basic summary sets. Nothing else changes. |
| Provider.TickDistinct | zookeeper-metrics-providers/zookeeper-prometheus-metrics/src/main/java/org/apache/zookeeper/metrics/prometheus/PrometheusMetricsProvider.java:571-574 | The four maps of a tick wrap pairwise disjoint objects, so no sketch is rotated twice in one tick. |
| Provider.CollectorEntries | zookeeper-metrics-providers/zookeeper-prometheus-metrics/src/main/java/org/apache/zookeeper/metrics/prometheus/PrometheusMetricsProvider.java:203-206 | The inner loop of `dump` gives one (key, value) pair per sample of a collector, in sample order. |
| Provider.DumpCollectors | zookeeper-metrics-providers/zookeeper-prometheus-metrics/src/main/java/org/apache/zookeeper/metrics/prometheus/PrometheusMetricsProvider.java:200-207 | The outer loop of `dump` enumerates each registered collector once, in an order of its own, and concatenates their pairs. |
| Provider.PrometheusMetricsProvider.Dump | zookeeper-metrics-providers/zookeeper-prometheus-metrics/src/main/java/org/apache/zookeeper/metrics/prometheus/PrometheusMetricsProvider.java:198-208 | `dump` samples the gauges first. If sampling throws, the sink gets nothing. Otherwise the sink gets `DumpEntries` of every registered collector. |
| DumpLaws.DumpShowsGauge | zookeeper-metrics-providers/zookeeper-prometheus-metrics/src/main/java/org/apache/zookeeper/metrics/prometheus/PrometheusMetricsProvider.java:198-208 | After a successful dump the sink has (name, value the gauge's callback returned), with zero for null. |
| DumpLaws.DumpShowsGaugeSetKey | zookeeper-metrics-providers/zookeeper-prometheus-metrics/src/main/java/org/apache/zookeeper/metrics/prometheus/PrometheusMetricsProvider.java:198-227 | After a successful dump the sink has (`name{key="k"}`, the value the map gave `k`) for every key of every gauge set's map. |
| DumpLaws.SamplingSparesCounters | zookeeper-metrics-providers/zookeeper-prometheus-metrics/src/main/java/org/apache/zookeeper/metrics/prometheus/PrometheusMetricsProvider.java:233-239 | Sampling never changes a counter or counter set. |
| DumpLaws.DumpShowsCounter | zookeeper-metrics-providers/zookeeper-prometheus-metrics/src/main/java/org/apache/zookeeper/metrics/prometheus/PrometheusMetricsProvider.java:198-208 | After a successful dump the sink has (name, count before the dump) for every counter. |
| DumpLaws.DumpShowsCounterSetSeries | zookeeper-metrics-providers/zookeeper-prometheus-metrics/src/main/java/org/apache/zookeeper/metrics/prometheus/PrometheusMetricsProvider.java:198-227 | After a successful dump the sink has (`name{key="k"}`, count) for every series of every counter set. |

## Left out

- `configure` (lines 116-129) is not modelled. It parses host, port, `exportJvmInfo`, the worker shutdown timeout, the rotation period and the deprecated keys. The model takes only the defaults.
- `start`, `stop` and the worker thread factory are not modelled: the Jetty server and servlet, the scheduled executor, the JVM collectors and `shutdownExecutor`. These are I/O, threads and timers. The scheduled task's body is modelled as `RotateSummaries`.
- `MetricsServletImpl.doGet` is not modelled beyond what `SampleGauges` models. It samples the gauges and then serves the text format, which is HTTP output.
- `resetAllValues` is not modelled; it does nothing.
- Logging is not modelled. Logged and swallowed exceptions are modelled as swallowed.
- The quantile estimate of a sketch is a parameter (`Estimator`). `SketchesSummary` is not part of this model. `rotate()` is modelled as counting rotations; its effect on the sketch's time window is not modelled.
- Provider.PrometheusMetricsProvider.RotateSummaries: a `rotate()` that throws is not modelled. The tick's `catch` that logs and gives up is therefore not exercised.
- Values are unbounded integers; Java `double` values are not modelled. `Metrics.PrometheusCounter.Get` narrows to `long` by clamping to the `long` range.
- The iteration order of the `ConcurrentHashMap`s and of the registry's enumeration is nondeterministic. The model picks any order, and its contracts hold for every order.
- A summary's `name_count` and `name_sum` samples are not modelled: `PrometheusClient.Samples` gives a summary only its quantile samples. The dump entries of a summary are therefore incomplete. Only counter and gauge samples are related to the dump by lemmas.
- The exception messages of the client library are not modelled (empty strings). The provider's own messages are exact.
- PrometheusClient.Register: refuses a name only when a collector is already registered under it. The client also refuses an empty or malformed metric name, and a name a registered collector derives, such as a summary's `x_count` and `x_sum`. The model accepts `getCounter("")`, and `getCounter("x_count")` after `getSummary("x")`; the program throws on both. The "succeeds iff the name is free" clauses of `MetricsLaws.GetCounterLaw`, `GetCounterSetLaw`, `GetSummaryLaw`, `GetSummarySetLaw`, `RegisterGaugeLaw` and `RegisterGaugeSetLaw` hold of this simplified registry.
- Concurrency is not modelled. Every operation runs alone.
- A null `DetailLevel` is not modelled. `getSummary` would file such a summary in the advanced map, but the `PrometheusSummary` constructor would build it with the basic quantile only.
- Sampling stops at the first failure: `sampleGauges` uses `forEach`, so one throwing gauge stops the pass and the exception propagates. The model follows the code. The gauges after the failing one are not sampled, and the gauge sets are not sampled while a gauge fails.
