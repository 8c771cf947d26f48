/** The provider's root `Context`: eight name-to-wrapper maps updated in
    place, over the CollectorRegistry the wrappers register into. Each
    method performs one step of `Metrics` on the context's state. */
module ContextImpl {
  import opened Base
  import opened PrometheusClient
  import opened PrometheusRegistry
  import opened Metrics
  import MetricsProperties

  class Context {
    const registry: CollectorRegistry
    var gauges: map<string, PrometheusGaugeWrapper>
    var gaugeSets: map<string, PrometheusLabelledGaugeWrapper>
    var counters: map<string, PrometheusCounter>
    var counterSets: map<string, PrometheusLabelledCounter>
    var basicSummaries: map<string, PrometheusSummary>
    var summaries: map<string, PrometheusSummary>
    var basicSummarySets: map<string, PrometheusLabelledSummary>
    var summarySets: map<string, PrometheusLabelledSummary>

    ghost function Maps(): Metrics.Maps
      reads this
    {
      Metrics.Maps(gauges, gaugeSets, counters, counterSets, basicSummaries, summaries, basicSummarySets, summarySets)
    }

    /** The context's maps and the registry's state. */
    ghost function State(): Metrics.World
      reads this, registry
    {
      Metrics.World(Maps(), registry.State())
    }

    ghost predicate Valid()
      reads this, registry
    {
      Inv(State())
    }

    constructor (registry: CollectorRegistry)
      requires registry.Valid()
      ensures Valid() && this.registry == registry && Maps() == EmptyMaps
    {
      this.registry := registry;
      gauges, gaugeSets, counters, counterSets := map[], map[], map[], map[];
      basicSummaries, summaries, basicSummarySets, summarySets := map[], map[], map[], map[];
      new;
      MetricsProperties.InitialInv(registry.State());
    }

    /** `getContext(name)`: there is no hierarchy; every name gives this context. */
    method GetContext(name: Option<string>) returns (r: Context)
      ensures r == this
    {
      r := this;
    }

    method GetCounter(name: Option<string>) returns (r: Result<PrometheusCounter>)
      requires Valid()
      modifies this, registry
      ensures Valid()
      ensures (State(), r) == Metrics.GetCounter(old(State()), name)
    {
      MetricsProperties.GetCounterKeepsInv(State(), name);
      if name.None? {
        return Err(NullPointer(""));
      }
      var n := name.value;
      if n in counters {
        return Ok(counters[n]);
      }
      var id := registry.Register(CounterCollector(n));
      if id.Err? {
        return Err(id.error);
      }
      var h := PrometheusCounter(n, id.value);
      counters := counters[n := h];
      r := Ok(h);
    }

    method GetCounterSet(name: Option<string>) returns (r: Result<PrometheusLabelledCounter>)
      requires Valid()
      modifies this, registry
      ensures Valid()
      ensures (State(), r) == Metrics.GetCounterSet(old(State()), name)
    {
      MetricsProperties.GetCounterSetKeepsInv(State(), name);
      if name.None? {
        return Err(NullPointer("Cannot register a CounterSet with null name"));
      }
      var n := name.value;
      if n in counterSets {
        return Ok(counterSets[n]);
      }
      var id := registry.Register(CounterSetCollector(n));
      if id.Err? {
        return Err(id.error);
      }
      var h := PrometheusLabelledCounter(n, id.value);
      counterSets := counterSets[n := h];
      r := Ok(h);
    }

    method RegisterGauge(name: Option<string>, gauge: Option<Callback>) returns (o: Outcome)
      requires Valid()
      modifies this, registry
      ensures Valid()
      ensures (State(), o) == Metrics.RegisterGauge(old(State()), name, gauge)
    {
      MetricsProperties.RegisterGaugeKeepsInv(State(), name, gauge);
      if name.None? {
        return Fail(NullPointer(""));
      }
      var n := name.value;
      if n in gauges {
        gauges := gauges[n := PrometheusGaugeWrapper(n, gauge, gauges[n].inner)];
        return Pass;
      }
      var id := registry.Register(GaugeCollector(n));
      if id.Err? {
        return Fail(id.error);
      }
      gauges := gauges[n := PrometheusGaugeWrapper(n, gauge, id.value)];
      o := Pass;
    }

    method UnregisterGauge(name: Option<string>) returns (o: Outcome)
      requires Valid()
      modifies this, registry
      ensures Valid()
      ensures (State(), o) == Metrics.UnregisterGauge(old(State()), name)
    {
      MetricsProperties.UnregisterGaugeKeepsInv(State(), name);
      if name.None? {
        return Fail(NullPointer(""));
      }
      var n := name.value;
      if n in gauges {
        var existing := gauges[n];
        gauges := gauges - {n};
        existing.Unregister(registry);
      }
      o := Pass;
    }

    method RegisterGaugeSet(name: Option<string>, gaugeSet: Option<Callback>) returns (o: Outcome)
      requires Valid()
      modifies this, registry
      ensures Valid()
      ensures (State(), o) == Metrics.RegisterGaugeSet(old(State()), name, gaugeSet)
    {
      MetricsProperties.RegisterGaugeSetKeepsInv(State(), name, gaugeSet);
      if name.None? {
        return Fail(NullPointer("Cannot register a GaugeSet with null name"));
      }
      if gaugeSet.None? {
        return Fail(NullPointer("Cannot register a null GaugeSet for " + name.value));
      }
      var n := name.value;
      if n in gaugeSets {
        gaugeSets := gaugeSets[n := PrometheusLabelledGaugeWrapper(gaugeSet.value, gaugeSets[n].inner)];
        return Pass;
      }
      var id := registry.Register(GaugeSetCollector(n));
      if id.Err? {
        return Fail(id.error);
      }
      gaugeSets := gaugeSets[n := PrometheusLabelledGaugeWrapper(gaugeSet.value, id.value)];
      o := Pass;
    }

    method UnregisterGaugeSet(name: Option<string>) returns (o: Outcome)
      requires Valid()
      modifies this, registry
      ensures Valid()
      ensures (State(), o) == Metrics.UnregisterGaugeSet(old(State()), name)
    {
      MetricsProperties.UnregisterGaugeSetKeepsInv(State(), name);
      if name.None? {
        return Fail(NullPointer("Cannot unregister GaugeSet with null name"));
      }
      var n := name.value;
      if n in gaugeSets {
        var existing := gaugeSets[n];
        gaugeSets := gaugeSets - {n};
        existing.Unregister(registry);
      }
      o := Pass;
    }

    method GetSummary(name: Option<string>, level: DetailLevel) returns (r: Result<PrometheusSummary>)
      requires Valid()
      modifies this, registry
      ensures Valid()
      ensures (State(), r) == Metrics.GetSummary(old(State()), name, level)
    {
      MetricsProperties.GetSummaryKeepsInv(State(), name, level);
      if name.None? {
        return Err(NullPointer(""));
      }
      var n := name.value;
      if level == Basic {
        if n in basicSummaries {
          return Ok(basicSummaries[n]);
        }
        if n in summaries {
          return Err(IllegalArgument("Already registered a non basic summary as " + n));
        }
      } else {
        if n in summaries {
          return Ok(summaries[n]);
        }
        if n in basicSummaries {
          return Err(IllegalArgument("Already registered a basic summary as " + n));
        }
      }
      var id := registry.Register(SummaryCollector(n, level));
      if id.Err? {
        return Err(id.error);
      }
      var h := PrometheusSummary(n, id.value);
      if level == Basic {
        basicSummaries := basicSummaries[n := h];
      } else {
        summaries := summaries[n := h];
      }
      r := Ok(h);
    }

    method GetSummarySet(name: Option<string>, level: DetailLevel) returns (r: Result<PrometheusLabelledSummary>)
      requires Valid()
      modifies this, registry
      ensures Valid()
      ensures (State(), r) == Metrics.GetSummarySet(old(State()), name, level)
    {
      MetricsProperties.GetSummarySetKeepsInv(State(), name, level);
      if name.None? {
        return Err(NullPointer(""));
      }
      var n := name.value;
      if level == Basic {
        if n in basicSummarySets {
          return Ok(basicSummarySets[n]);
        }
        if n in summarySets {
          return Err(IllegalArgument("Already registered a non basic summary set as " + n));
        }
      } else {
        if n in summarySets {
          return Ok(summarySets[n]);
        }
        if n in basicSummarySets {
          return Err(IllegalArgument("Already registered a basic summary set as " + n));
        }
      }
      var id := registry.Register(SummarySetCollector(n, level));
      if id.Err? {
        return Err(id.error);
      }
      var h := PrometheusLabelledSummary(n, id.value);
      if level == Basic {
        basicSummarySets := basicSummarySets[n := h];
      } else {
        summarySets := summarySets[n := h];
      }
      r := Ok(h);
    }
  }
}
