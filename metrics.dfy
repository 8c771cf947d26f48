/** The provider's metric registry (its `Context`) as values: the metric
    wrappers it hands out, its eight name-to-wrapper maps, and each of its
    get/register/unregister operations as a step from one state of the maps
    and the backend registry to the next. Class `Context` performs the same
    steps in place; the lemmas in `MetricsProperties` state what they promise. */
module Metrics {
  import opened Base
  import opened PrometheusClient
  import opened PrometheusRegistry

  /** The name of the one label of every labelled metric (`LABEL`, `LABELS`). */
  const LABEL: string := "key"
  const LABELS: seq<string> := [LABEL]

  datatype DetailLevel = Basic | Advanced

  /** An application-supplied callback object (a Gauge or a GaugeSet), by identity. */
  datatype Callback = Callback(id: nat)

  // The wrappers. Every field of them is final in the source, so each is a
  // value; `inner` is the identity of the backend object it wraps, whose
  // state lives in the shared CollectorRegistry each method is handed.

  /** A counter: an unlabelled backend counter. */
  datatype PrometheusCounter = PrometheusCounter(name: string, inner: Id) {
    /** `add(delta)`: increments the backend counter; the backend's refusal
        of a negative delta (IllegalArgumentException) is logged and
        swallowed, so the call always returns normally. */
    method Add(registry: CollectorRegistry, delta: Long)
      requires registry.Valid() && inner in registry.collectors && registry.collectors[inner].labelNames == []
      modifies registry
      ensures registry.Valid() && registry.names == old(registry.names) && registry.nextId == old(registry.nextId)
      ensures registry.collectors == old(registry.collectors)[inner := Inc(old(registry.collectors[inner]), [], delta).0]
    {
      var _ := registry.Inc(inner, [], delta);
    }

    /** `get()`: the backend value, narrowed to a `long`. */
    method Get(registry: CollectorRegistry) returns (r: Long)
      requires inner in registry.collectors
      ensures r == ToLong(ValueOf(registry.collectors[inner], []))
    {
      r := ToLong(ValueOf(registry.collectors[inner], []));
    }
  }

  /** A counter set: a backend counter labelled `key`. */
  datatype PrometheusLabelledCounter = PrometheusLabelledCounter(name: string, inner: Id) {
    /** `add(key, delta)`: increments the series of `key`; a null key or a
        negative delta (IllegalArgumentException) is logged and swallowed. */
    method Add(registry: CollectorRegistry, key: Option<string>, delta: Long)
      requires registry.Valid() && inner in registry.collectors && registry.collectors[inner].labelNames == LABELS
      modifies registry
      ensures registry.Valid() && registry.names == old(registry.names) && registry.nextId == old(registry.nextId)
      ensures registry.collectors == old(registry.collectors)[inner := Inc(old(registry.collectors[inner]), [key], delta).0]
    {
      var _ := registry.Inc(inner, [key], delta);
    }
  }

  /** A registered gauge: the callback (null when registered as null) and
      the backend gauge it is sampled into. */
  datatype PrometheusGaugeWrapper = PrometheusGaugeWrapper(name: string, gauge: Option<Callback>, inner: Id) {
    /** `sample()`: reads the callback and sets the backend gauge. An
        exception of the callback, or the null callback's, propagates. */
    method Sample(registry: CollectorRegistry, read: Callback -> Reading) returns (o: Outcome)
      requires registry.Valid() && inner in registry.collectors
      modifies registry
      ensures registry.Valid() && registry.names == old(registry.names) && registry.nextId == old(registry.nextId)
      ensures inner in registry.collectors
      ensures (registry.collectors[inner], o) == SampleGauge(old(registry.collectors[inner]), gauge, read)
      ensures registry.collectors == old(registry.collectors)[inner := registry.collectors[inner]]
    {
      if gauge.None? {
        return Fail(NullPointer(""));
      }
      var value := read(gauge.value);
      if value.Threw? {
        return Fail(CallbackException);
      }
      o := registry.Set(inner, [], value.value.GetOr(0));
    }

    /** `unregister()`: unregisters the backend gauge. */
    method Unregister(registry: CollectorRegistry)
      requires registry.Valid()
      modifies registry
      ensures registry.Valid() && registry.State() == PrometheusClient.Unregister(old(registry.State()), inner)
    {
      registry.Unregister(inner);
    }
  }

  /** A registered gauge set: the callback and the backend gauge labelled `key`. */
  datatype PrometheusLabelledGaugeWrapper = PrometheusLabelledGaugeWrapper(gaugeSet: Callback, inner: Id) {
    /** `sample()`: sets the series of every key of the callback's map, in
        the map's order; the first null key stops the pass with the
        backend's IllegalArgumentException, which propagates. */
    method Sample(registry: CollectorRegistry, readSet: Callback -> SetReading) returns (o: Outcome)
      requires registry.Valid() && inner in registry.collectors
      modifies registry
      ensures registry.Valid() && registry.names == old(registry.names) && registry.nextId == old(registry.nextId)
      ensures inner in registry.collectors
      ensures (registry.collectors[inner], o) == SampleGaugeSet(old(registry.collectors[inner]), gaugeSet, readSet)
      ensures registry.collectors == old(registry.collectors)[inner := registry.collectors[inner]]
    {
      var values := readSet(gaugeSet);
      if values.ThrewMap? {
        return Fail(CallbackException);
      } else if values.ReturnedNull? {
        return Fail(NullPointer(""));
      }
      var entries := values.entries;
      ghost var c0 := registry.collectors;
      o := Pass;
      var i := 0;
      while i < |entries|
        invariant 0 <= i <= |entries|
        invariant registry.Valid() && registry.names == old(registry.names) && registry.nextId == old(registry.nextId)
        invariant inner in registry.collectors && registry.collectors == c0[inner := registry.collectors[inner]]
        invariant o == Pass
        invariant SetEntries(c0[inner], entries) == SetEntries(registry.collectors[inner], entries[i..])
      {
        var (key, value) := entries[i];
        assert entries[i..][0] == entries[i] && entries[i..][1..] == entries[i + 1..];
        o := registry.Set(inner, [key], value.GetOr(0));
        if o.Fail? {
          return;
        }
        i := i + 1;
      }
    }

    /** `unregister()`: unregisters the backend gauge. */
    method Unregister(registry: CollectorRegistry)
      requires registry.Valid()
      modifies registry
      ensures registry.Valid() && registry.State() == PrometheusClient.Unregister(old(registry.State()), inner)
    {
      registry.Unregister(inner);
    }
  }

  /** A summary: an unlabelled backend sketch summary. */
  datatype PrometheusSummary = PrometheusSummary(name: string, inner: Id) {
    /** `add(delta)`: feeds the value to the sketch; an IllegalArgumentException
        is logged and swallowed. */
    method Add(registry: CollectorRegistry, delta: Long)
      requires registry.Valid() && inner in registry.collectors && registry.collectors[inner].labelNames == []
      modifies registry
      ensures registry.Valid() && registry.names == old(registry.names) && registry.nextId == old(registry.nextId)
      ensures registry.collectors == old(registry.collectors)[inner := Observe(old(registry.collectors[inner]), [], delta).0]
    {
      var _ := registry.Observe(inner, [], delta);
    }
  }

  /** A summary set: a backend sketch summary labelled `key`. */
  datatype PrometheusLabelledSummary = PrometheusLabelledSummary(name: string, inner: Id) {
    /** `add(key, value)`: feeds the value to the series of `key`; a null key
        (IllegalArgumentException) is logged and swallowed. */
    method Add(registry: CollectorRegistry, key: Option<string>, value: Long)
      requires registry.Valid() && inner in registry.collectors && registry.collectors[inner].labelNames == LABELS
      modifies registry
      ensures registry.Valid() && registry.names == old(registry.names) && registry.nextId == old(registry.nextId)
      ensures registry.collectors == old(registry.collectors)[inner := Observe(old(registry.collectors[inner]), [key], value).0]
    {
      var _ := registry.Observe(inner, [key], value);
    }
  }

  // ----- Sampling -----

  /** What a gauge callback's `get()` does when it is sampled: it returns a
      number or null, or it throws. */
  datatype Reading = Returned(value: Option<int>) | Threw

  /** What a gauge set callback's `values()` does: it returns a map, as its
      entries in the map's iteration order, or null, or it throws. */
  datatype SetReading = ReturnedMap(entries: seq<(Option<string>, Option<int>)>) | ReturnedNull | ThrewMap

  /** Sampling a gauge: a null reading counts as zero. */
  function SampleGauge(c: Collector, gauge: Option<Callback>, read: Callback -> Reading): (r: (Collector, Outcome))
    requires WellFormed(c)
    ensures WellFormed(r.0) && SameConfig(c, r.0) && r.0.rotations == c.rotations
    ensures r.1.Fail? ==> r.0 == c
  {
    match gauge
    case None => (c, Fail(NullPointer("")))
    case Some(g) =>
      match read(g)
      case Threw => (c, Fail(CallbackException))
      case Returned(v) => Set(c, [], v.GetOr(0))
  }

  /** Setting the series of each entry in turn, a null value counting as
      zero, until a null key is refused. */
  function SetEntries(c: Collector, entries: seq<(Option<string>, Option<int>)>): (r: (Collector, Outcome))
    requires WellFormed(c)
    ensures WellFormed(r.0) && SameConfig(c, r.0) && r.0.rotations == c.rotations
    decreases |entries|
  {
    if entries == [] then (c, Pass)
    else
      var (d, o) := Set(c, [entries[0].0], entries[0].1.GetOr(0));
      if o.Fail? then (d, o) else SetEntries(d, entries[1..])
  }

  /** Sampling a gauge set. */
  function SampleGaugeSet(c: Collector, gaugeSet: Callback, readSet: Callback -> SetReading): (r: (Collector, Outcome))
    requires WellFormed(c)
    ensures WellFormed(r.0) && SameConfig(c, r.0) && r.0.rotations == c.rotations
  {
    match readSet(gaugeSet)
    case ThrewMap => (c, Fail(CallbackException))
    case ReturnedNull => (c, Fail(NullPointer("")))
    case ReturnedMap(entries) => SetEntries(c, entries)
  }

  /** The eight maps of the `Context`. */
  datatype Maps = Maps(
    gauges: map<string, PrometheusGaugeWrapper>,
    gaugeSets: map<string, PrometheusLabelledGaugeWrapper>,
    counters: map<string, PrometheusCounter>,
    counterSets: map<string, PrometheusLabelledCounter>,
    basicSummaries: map<string, PrometheusSummary>,
    summaries: map<string, PrometheusSummary>,
    basicSummarySets: map<string, PrometheusLabelledSummary>,
    summarySets: map<string, PrometheusLabelledSummary>)

  const EmptyMaps := Maps(map[], map[], map[], map[], map[], map[], map[], map[])

  /** The context's maps together with the backend registry they live in. */
  datatype World = World(maps: Maps, lib: RegistryState)

  /** The quantiles a summary is built with: the median only at BASIC, the
      median, 90th and 99th percentiles at ADVANCED. */
  function Quantiles(level: DetailLevel): (qs: seq<Quantile>)
    ensures level == Basic ==> qs == [Median]
    ensures level == Advanced ==> |qs| == 3 && Median in qs && P90 in qs && P99 in qs
  {
    if level == Advanced then [Median, P90, P99] else [Median]
  }

  // The backend object each wrapper constructor builds.

  function CounterCollector(name: string): Collector { Build(name, CounterKind, []) }
  function CounterSetCollector(name: string): Collector { Build(name, CounterKind, LABELS) }
  function GaugeCollector(name: string): Collector { Build(name, GaugeKind, []) }
  function GaugeSetCollector(name: string): Collector { Build(name, GaugeKind, LABELS) }
  function SummaryCollector(name: string, level: DetailLevel): Collector {
    Build(name, SummaryKind(Quantiles(level)), [])
  }
  function SummarySetCollector(name: string, level: DetailLevel): Collector {
    Build(name, SummaryKind(Quantiles(level)), LABELS)
  }

  /** The eight maps, as tags. */
  datatype Family =
    | Gauges | GaugeSets | Counters | CounterSets
    | BasicSummaries | Summaries | BasicSummarySets | SummarySets

  /** The names a map holds. */
  function Names(m: Maps, f: Family): set<string> {
    match f
    case Gauges => m.gauges.Keys
    case GaugeSets => m.gaugeSets.Keys
    case Counters => m.counters.Keys
    case CounterSets => m.counterSets.Keys
    case BasicSummaries => m.basicSummaries.Keys
    case Summaries => m.summaries.Keys
    case BasicSummarySets => m.basicSummarySets.Keys
    case SummarySets => m.summarySets.Keys
  }

  /** The backend object wrapped by the entry for `n`. */
  function Inner(m: Maps, f: Family, n: string): Id
    requires n in Names(m, f)
  {
    match f
    case Gauges => m.gauges[n].inner
    case GaugeSets => m.gaugeSets[n].inner
    case Counters => m.counters[n].inner
    case CounterSets => m.counterSets[n].inner
    case BasicSummaries => m.basicSummaries[n].inner
    case Summaries => m.summaries[n].inner
    case BasicSummarySets => m.basicSummarySets[n].inner
    case SummarySets => m.summarySets[n].inner
  }

  /** The kind of backend object the wrappers of a map build. */
  function FamilyKind(f: Family): Kind {
    match f
    case Gauges | GaugeSets => GaugeKind
    case Counters | CounterSets => CounterKind
    case BasicSummaries | BasicSummarySets => SummaryKind(Quantiles(Basic))
    case Summaries | SummarySets => SummaryKind(Quantiles(Advanced))
  }

  /** The label names of the backend objects the wrappers of a map build. */
  function FamilyLabels(f: Family): seq<string> {
    match f
    case Gauges | Counters | BasicSummaries | Summaries => []
    case _ => LABELS
  }

  /** Name `n` is registered to backend object `id`, of the given kind and labels. */
  ghost predicate Backs(lib: RegistryState, n: string, id: Id, kind: Kind, labelNames: seq<string>) {
    && n in lib.names && lib.names[n] == id && id in lib.collectors
    && lib.collectors[id].kind == kind && lib.collectors[id].labelNames == labelNames
  }

  /** Every wrapper that keeps its name keeps the name it is filed under. */
  ghost predicate NamesMatch(m: Maps) {
    && (forall n :: n in m.gauges ==> m.gauges[n].name == n)
    && (forall n :: n in m.counters ==> m.counters[n].name == n)
    && (forall n :: n in m.counterSets ==> m.counterSets[n].name == n)
    && (forall n :: n in m.basicSummaries ==> m.basicSummaries[n].name == n)
    && (forall n :: n in m.summaries ==> m.summaries[n].name == n)
    && (forall n :: n in m.basicSummarySets ==> m.basicSummarySets[n].name == n)
    && (forall n :: n in m.summarySets ==> m.summarySets[n].name == n)
  }

  /** Every wrapper wraps the backend object registered under its name,
      built as its map builds them. */
  ghost predicate Backed(m: Maps, lib: RegistryState) {
    forall f, n :: n in Names(m, f) ==> Backs(lib, n, Inner(m, f, n), FamilyKind(f), FamilyLabels(f))
  }

  ghost predicate Inv(w: World) {
    Consistent(w.lib) && NamesMatch(w.maps) && Backed(w.maps, w.lib)
  }

  // ----- The steps: one per `Context` method -----

  /** `getCounter(name)`: `counters.computeIfAbsent(name, PrometheusCounter::new)`.
      A null name is refused by the map itself. */
  function GetCounter(w: World, name: Option<string>): (r: (World, Result<PrometheusCounter>))
    ensures r.1.Err? ==> r.0 == w
  {
    if name.None? then (w, Err(NullPointer("")))
    else
      var n := name.value;
      if n in w.maps.counters then (w, Ok(w.maps.counters[n]))
      else
        var (lib, id) := Register(w.lib, CounterCollector(n));
        match id
        case Err(e) => (w, Err(e))
        case Ok(i) =>
          var h := PrometheusCounter(n, i);
          (World(w.maps.(counters := w.maps.counters[n := h]), lib), Ok(h))
  }

  /** `getCounterSet(name)`: refuses a null name, then get-or-create. */
  function GetCounterSet(w: World, name: Option<string>): (r: (World, Result<PrometheusLabelledCounter>))
    ensures r.1.Err? ==> r.0 == w
  {
    if name.None? then (w, Err(NullPointer("Cannot register a CounterSet with null name")))
    else
      var n := name.value;
      if n in w.maps.counterSets then (w, Ok(w.maps.counterSets[n]))
      else
        var (lib, id) := Register(w.lib, CounterSetCollector(n));
        match id
        case Err(e) => (w, Err(e))
        case Ok(i) =>
          var h := PrometheusLabelledCounter(n, i);
          (World(w.maps.(counterSets := w.maps.counterSets[n := h]), lib), Ok(h))
  }

  /** `registerGauge(name, gauge)`: `gauges.compute` builds a new wrapper
      holding the new callback; it takes over the previous wrapper's backend
      object if there is one and registers a new one otherwise. When the
      registration throws, the map is left as it was. */
  function RegisterGauge(w: World, name: Option<string>, gauge: Option<Callback>): (r: (World, Outcome))
    ensures r.1.Fail? ==> r.0 == w
  {
    if name.None? then (w, Fail(NullPointer("")))
    else
      var n := name.value;
      if n in w.maps.gauges then
        var h := PrometheusGaugeWrapper(n, gauge, w.maps.gauges[n].inner);
        (w.(maps := w.maps.(gauges := w.maps.gauges[n := h])), Pass)
      else
        var (lib, id) := Register(w.lib, GaugeCollector(n));
        match id
        case Err(e) => (w, Fail(e))
        case Ok(i) =>
          var h := PrometheusGaugeWrapper(n, gauge, i);
          (World(w.maps.(gauges := w.maps.gauges[n := h]), lib), Pass)
  }

  /** `unregisterGauge(name)`: removes the wrapper and unregisters its backend
      object; a name that is not there changes nothing. A null name is refused
      by the map itself. */
  function UnregisterGauge(w: World, name: Option<string>): (r: (World, Outcome))
    ensures r.1.Fail? ==> r.0 == w
  {
    if name.None? then (w, Fail(NullPointer("")))
    else
      var n := name.value;
      if n in w.maps.gauges then
        var existing := w.maps.gauges[n];
        (World(w.maps.(gauges := w.maps.gauges - {n}), Unregister(w.lib, existing.inner)), Pass)
      else (w, Pass)
  }

  /** `registerGaugeSet(name, gaugeSet)`: refuses a null name and a null
      callback, then as `registerGauge`. */
  function RegisterGaugeSet(w: World, name: Option<string>, gaugeSet: Option<Callback>): (r: (World, Outcome))
    ensures r.1.Fail? ==> r.0 == w
  {
    if name.None? then (w, Fail(NullPointer("Cannot register a GaugeSet with null name")))
    else if gaugeSet.None? then (w, Fail(NullPointer("Cannot register a null GaugeSet for " + name.value)))
    else
      var n := name.value;
      if n in w.maps.gaugeSets then
        var h := PrometheusLabelledGaugeWrapper(gaugeSet.value, w.maps.gaugeSets[n].inner);
        (w.(maps := w.maps.(gaugeSets := w.maps.gaugeSets[n := h])), Pass)
      else
        var (lib, id) := Register(w.lib, GaugeSetCollector(n));
        match id
        case Err(e) => (w, Fail(e))
        case Ok(i) =>
          var h := PrometheusLabelledGaugeWrapper(gaugeSet.value, i);
          (World(w.maps.(gaugeSets := w.maps.gaugeSets[n := h]), lib), Pass)
  }

  /** `unregisterGaugeSet(name)`: refuses a null name, then as `unregisterGauge`. */
  function UnregisterGaugeSet(w: World, name: Option<string>): (r: (World, Outcome))
    ensures r.1.Fail? ==> r.0 == w
  {
    if name.None? then (w, Fail(NullPointer("Cannot unregister GaugeSet with null name")))
    else
      var n := name.value;
      if n in w.maps.gaugeSets then
        var existing := w.maps.gaugeSets[n];
        (World(w.maps.(gaugeSets := w.maps.gaugeSets - {n}), Unregister(w.lib, existing.inner)), Pass)
      else (w, Pass)
  }

  /** `getSummary(name, level)`: get-or-create in the map of the level; the
      creation refuses a name that the other level's map holds. */
  function GetSummary(w: World, name: Option<string>, level: DetailLevel): (r: (World, Result<PrometheusSummary>))
    ensures r.1.Err? ==> r.0 == w
  {
    if name.None? then (w, Err(NullPointer("")))
    else
      var n := name.value;
      if level == Basic then
        if n in w.maps.basicSummaries then (w, Ok(w.maps.basicSummaries[n]))
        else if n in w.maps.summaries then (w, Err(IllegalArgument("Already registered a non basic summary as " + n)))
        else
          var (lib, id) := Register(w.lib, SummaryCollector(n, level));
          match id
          case Err(e) => (w, Err(e))
          case Ok(i) =>
            var h := PrometheusSummary(n, i);
            (World(w.maps.(basicSummaries := w.maps.basicSummaries[n := h]), lib), Ok(h))
      else
        if n in w.maps.summaries then (w, Ok(w.maps.summaries[n]))
        else if n in w.maps.basicSummaries then (w, Err(IllegalArgument("Already registered a basic summary as " + n)))
        else
          var (lib, id) := Register(w.lib, SummaryCollector(n, level));
          match id
          case Err(e) => (w, Err(e))
          case Ok(i) =>
            var h := PrometheusSummary(n, i);
            (World(w.maps.(summaries := w.maps.summaries[n := h]), lib), Ok(h))
  }

  /** `getSummarySet(name, level)`: as `getSummary`, for labelled summaries. */
  function GetSummarySet(w: World, name: Option<string>, level: DetailLevel): (r: (World, Result<PrometheusLabelledSummary>))
    ensures r.1.Err? ==> r.0 == w
  {
    if name.None? then (w, Err(NullPointer("")))
    else
      var n := name.value;
      if level == Basic then
        if n in w.maps.basicSummarySets then (w, Ok(w.maps.basicSummarySets[n]))
        else if n in w.maps.summarySets then (w, Err(IllegalArgument("Already registered a non basic summary set as " + n)))
        else
          var (lib, id) := Register(w.lib, SummarySetCollector(n, level));
          match id
          case Err(e) => (w, Err(e))
          case Ok(i) =>
            var h := PrometheusLabelledSummary(n, i);
            (World(w.maps.(basicSummarySets := w.maps.basicSummarySets[n := h]), lib), Ok(h))
      else
        if n in w.maps.summarySets then (w, Ok(w.maps.summarySets[n]))
        else if n in w.maps.basicSummarySets then (w, Err(IllegalArgument("Already registered a basic summary set as " + n)))
        else
          var (lib, id) := Register(w.lib, SummarySetCollector(n, level));
          match id
          case Err(e) => (w, Err(e))
          case Ok(i) =>
            var h := PrometheusLabelledSummary(n, i);
            (World(w.maps.(summarySets := w.maps.summarySets[n := h]), lib), Ok(h))
  }
}
