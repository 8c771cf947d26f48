/** What the context's operations promise: each keeps every wrapper tied to
    the backend object registered under its name, a get is idempotent, a
    gauge can be re-registered and unregistered, basic and advanced
    summaries exclude each other, and null names are refused. */
module MetricsProperties {
  import opened Base
  import opened PrometheusClient
  import opened Metrics

  // ----- Framing -----

  /** Every registration in `lib` of a name outside `except` is still there in `lib2`. */
  ghost predicate Keeps(lib: RegistryState, lib2: RegistryState, except: set<string>) {
    forall n, id, kind, ln :: n !in except && Backs(lib, n, id, kind, ln) ==> Backs(lib2, n, id, kind, ln)
  }

  lemma RegisterKeeps(lib: RegistryState, c: Collector)
    requires Consistent(lib)
    ensures Keeps(lib, Register(lib, c).0, {})
  {
  }

  /** Unregistering the object a name is registered to takes away that name only. */
  lemma UnregisterKeeps(lib: RegistryState, n0: string)
    requires Consistent(lib) && n0 in lib.names
    ensures Keeps(lib, Unregister(lib, lib.names[n0]), {n0})
  {
    var lib2 := Unregister(lib, lib.names[n0]);
    forall n, id, kind, ln | n !in {n0} && Backs(lib, n, id, kind, ln)
      ensures Backs(lib2, n, id, kind, ln)
    {
      assert lib.collectors[lib.names[n]].name != lib.collectors[lib.names[n0]].name;
    }
  }

  /** Two states of the maps that differ at most in the entry for `n0` of map `f0`. */
  ghost predicate AgreeExcept(m: Maps, m2: Maps, f0: Family, n0: string) {
    forall f, n :: !(f == f0 && n == n0) ==>
      && (n in Names(m, f) <==> n in Names(m2, f))
      && (n in Names(m, f) ==> Inner(m, f, n) == Inner(m2, f, n))
  }

  /** The invariant survives a change of one entry and of the registry that
      keeps every other name registered and backs the entry, if any, for `n0`. */
  lemma {:induction false} UpdateKeepsInv(w: World, m2: Maps, lib2: RegistryState, f0: Family, n0: string)
    requires Inv(w) && Consistent(lib2) && NamesMatch(m2)
    requires AgreeExcept(w.maps, m2, f0, n0) && Keeps(w.lib, lib2, {n0})
    requires forall f :: n0 in Names(m2, f) ==> Backs(lib2, n0, Inner(m2, f, n0), FamilyKind(f), FamilyLabels(f))
    ensures Inv(World(m2, lib2))
  {
    forall f, n | n in Names(m2, f)
      ensures Backs(lib2, n, Inner(m2, f, n), FamilyKind(f), FamilyLabels(f))
    {
      if n != n0 {
        assert n in Names(w.maps, f);
      }
    }
  }

  /** Under the invariant a name is in at most one of the eight maps. */
  lemma {:induction false} FamiliesExclusive(w: World, n: string, f: Family, g: Family)
    requires Inv(w) && n in Names(w.maps, f) && n in Names(w.maps, g)
    ensures f == g
  {
    assert Backs(w.lib, n, Inner(w.maps, f, n), FamilyKind(f), FamilyLabels(f));
    assert Backs(w.lib, n, Inner(w.maps, g, n), FamilyKind(g), FamilyLabels(g));
    assert |Quantiles(Basic)| != |Quantiles(Advanced)|;
  }

  /** Under the invariant no two entries wrap the same backend object. */
  lemma {:induction false} InnersDistinct(w: World, f: Family, g: Family, n: string, n2: string)
    requires Inv(w) && n in Names(w.maps, f) && n2 in Names(w.maps, g)
    requires Inner(w.maps, f, n) == Inner(w.maps, g, n2)
    ensures n == n2 && f == g
  {
    assert Backs(w.lib, n, Inner(w.maps, f, n), FamilyKind(f), FamilyLabels(f));
    assert Backs(w.lib, n2, Inner(w.maps, g, n2), FamilyKind(g), FamilyLabels(g));
    FamiliesExclusive(w, n, f, g);
  }

  /** Changing backend objects without changing what they were built as
      keeps the invariant. */
  lemma ReshapeKeepsInv(w: World, lib2: RegistryState)
    requires Inv(w) && lib2.names == w.lib.names && lib2.nextId == w.lib.nextId
    requires lib2.collectors.Keys == w.lib.collectors.Keys
    requires forall id :: id in w.lib.collectors ==>
      SameConfig(w.lib.collectors[id], lib2.collectors[id]) && WellFormed(lib2.collectors[id])
    ensures Inv(World(w.maps, lib2))
  {
  }

  /** A name not registered in the backend is in none of the maps. */
  lemma FreeNameUnused(w: World, n: string)
    requires Inv(w) && n !in w.lib.names
    ensures forall f :: n !in Names(w.maps, f)
  {
  }

  /** Filing a new wrapper under a name that was free, for a collector just
      registered under it, keeps the invariant. */
  lemma {:induction false} AddEntryKeepsInv(w: World, m2: Maps, c: Collector, f0: Family)
    requires Inv(w) && c.name !in w.lib.names && WellFormed(c)
    requires c.kind == FamilyKind(f0) && c.labelNames == FamilyLabels(f0)
    requires NamesMatch(m2) && AgreeExcept(w.maps, m2, f0, c.name)
    requires c.name in Names(m2, f0) && Inner(m2, f0, c.name) == Register(w.lib, c).1.value
    ensures Inv(World(m2, Register(w.lib, c).0))
  {
    var n0, lib2 := c.name, Register(w.lib, c).0;
    RegisterKeeps(w.lib, c);
    FreeNameUnused(w, n0);
    forall f | n0 in Names(m2, f)
      ensures Backs(lib2, n0, Inner(m2, f, n0), FamilyKind(f), FamilyLabels(f))
    {
      assert f == f0;
    }
    UpdateKeepsInv(w, m2, lib2, f0, n0);
  }

  /** Replacing the wrapper filed under a name by one around the same backend
      object keeps the invariant. */
  lemma {:induction false} ReplaceEntryKeepsInv(w: World, m2: Maps, f0: Family, n0: string)
    requires Inv(w) && n0 in Names(w.maps, f0)
    requires NamesMatch(m2) && AgreeExcept(w.maps, m2, f0, n0)
    requires n0 in Names(m2, f0) && Inner(m2, f0, n0) == Inner(w.maps, f0, n0)
    ensures Inv(World(m2, w.lib))
  {
    forall f | n0 in Names(m2, f)
      ensures Backs(w.lib, n0, Inner(m2, f, n0), FamilyKind(f), FamilyLabels(f))
    {
      if f != f0 {
        assert n0 in Names(w.maps, f);
        FamiliesExclusive(w, n0, f, f0);
      }
    }
    UpdateKeepsInv(w, m2, w.lib, f0, n0);
  }

  /** Removing the wrapper filed under a name and unregistering its backend
      object keeps the invariant. */
  lemma {:induction false} RemoveEntryKeepsInv(w: World, m2: Maps, f0: Family, n0: string)
    requires Inv(w) && n0 in Names(w.maps, f0)
    requires NamesMatch(m2) && AgreeExcept(w.maps, m2, f0, n0) && n0 !in Names(m2, f0)
    ensures Inv(World(m2, Unregister(w.lib, Inner(w.maps, f0, n0))))
  {
    assert Backs(w.lib, n0, Inner(w.maps, f0, n0), FamilyKind(f0), FamilyLabels(f0));
    UnregisterKeeps(w.lib, n0);
    forall f | n0 in Names(m2, f) ensures false {
      assert n0 in Names(w.maps, f);
      FamiliesExclusive(w, n0, f, f0);
    }
    UpdateKeepsInv(w, m2, Unregister(w.lib, Inner(w.maps, f0, n0)), f0, n0);
  }

  // Filing or removing one wrapper changes one entry of one map.

  lemma PutCounter(m: Maps, n: string, h: PrometheusCounter, m2: Maps)
    requires NamesMatch(m) && h.name == n && m2 == m.(counters := m.counters[n := h])
    ensures NamesMatch(m2) && AgreeExcept(m, m2, Counters, n)
    ensures n in Names(m2, Counters) && Inner(m2, Counters, n) == h.inner
  {
  }

  lemma PutCounterSet(m: Maps, n: string, h: PrometheusLabelledCounter, m2: Maps)
    requires NamesMatch(m) && h.name == n && m2 == m.(counterSets := m.counterSets[n := h])
    ensures NamesMatch(m2) && AgreeExcept(m, m2, CounterSets, n)
    ensures n in Names(m2, CounterSets) && Inner(m2, CounterSets, n) == h.inner
  {
  }

  lemma PutGauge(m: Maps, n: string, h: PrometheusGaugeWrapper, m2: Maps)
    requires NamesMatch(m) && h.name == n && m2 == m.(gauges := m.gauges[n := h])
    ensures NamesMatch(m2) && AgreeExcept(m, m2, Gauges, n)
    ensures n in Names(m2, Gauges) && Inner(m2, Gauges, n) == h.inner
  {
  }

  lemma PutGaugeSet(m: Maps, n: string, h: PrometheusLabelledGaugeWrapper, m2: Maps)
    requires NamesMatch(m) && m2 == m.(gaugeSets := m.gaugeSets[n := h])
    ensures NamesMatch(m2) && AgreeExcept(m, m2, GaugeSets, n)
    ensures n in Names(m2, GaugeSets) && Inner(m2, GaugeSets, n) == h.inner
  {
  }

  lemma PutSummary(m: Maps, level: DetailLevel, n: string, h: PrometheusSummary, m2: Maps)
    requires NamesMatch(m) && h.name == n
    requires m2 == if level == Basic then m.(basicSummaries := m.basicSummaries[n := h])
                   else m.(summaries := m.summaries[n := h])
    ensures var f := if level == Basic then BasicSummaries else Summaries;
      NamesMatch(m2) && AgreeExcept(m, m2, f, n) && n in Names(m2, f) && Inner(m2, f, n) == h.inner
  {
  }

  lemma PutSummarySet(m: Maps, level: DetailLevel, n: string, h: PrometheusLabelledSummary, m2: Maps)
    requires NamesMatch(m) && h.name == n
    requires m2 == if level == Basic then m.(basicSummarySets := m.basicSummarySets[n := h])
                   else m.(summarySets := m.summarySets[n := h])
    ensures var f := if level == Basic then BasicSummarySets else SummarySets;
      NamesMatch(m2) && AgreeExcept(m, m2, f, n) && n in Names(m2, f) && Inner(m2, f, n) == h.inner
  {
  }

  lemma RemoveGauge(m: Maps, n: string, m2: Maps)
    requires NamesMatch(m) && m2 == m.(gauges := m.gauges - {n})
    ensures NamesMatch(m2) && AgreeExcept(m, m2, Gauges, n) && n !in Names(m2, Gauges)
  {
  }

  lemma RemoveGaugeSet(m: Maps, n: string, m2: Maps)
    requires NamesMatch(m) && m2 == m.(gaugeSets := m.gaugeSets - {n})
    ensures NamesMatch(m2) && AgreeExcept(m, m2, GaugeSets, n) && n !in Names(m2, GaugeSets)
  {
  }

  // ----- Every operation keeps the invariant -----

  lemma {:induction false} GetCounterKeepsInv(w: World, name: Option<string>)
    requires Inv(w)
    ensures Inv(GetCounter(w, name).0)
  {
    if name.Some? && name.value !in w.maps.counters {
      var n := name.value;
      var c := CounterCollector(n);
      var (lib2, id) := Register(w.lib, c);
      if id.Ok? {
        var m2 := w.maps.(counters := w.maps.counters[n := PrometheusCounter(n, id.value)]);
        assert GetCounter(w, name).0 == World(m2, lib2);
        PutCounter(w.maps, n, PrometheusCounter(n, id.value), m2);
        AddEntryKeepsInv(w, m2, c, Counters);
      }
    }
  }

  lemma {:induction false} GetCounterSetKeepsInv(w: World, name: Option<string>)
    requires Inv(w)
    ensures Inv(GetCounterSet(w, name).0)
  {
    if name.Some? && name.value !in w.maps.counterSets {
      var n := name.value;
      var c := CounterSetCollector(n);
      var (lib2, id) := Register(w.lib, c);
      if id.Ok? {
        var m2 := w.maps.(counterSets := w.maps.counterSets[n := PrometheusLabelledCounter(n, id.value)]);
        assert GetCounterSet(w, name).0 == World(m2, lib2);
        PutCounterSet(w.maps, n, PrometheusLabelledCounter(n, id.value), m2);
        AddEntryKeepsInv(w, m2, c, CounterSets);
      }
    }
  }

  lemma {:induction false} RegisterGaugeKeepsInv(w: World, name: Option<string>, gauge: Option<Callback>)
    requires Inv(w)
    ensures Inv(RegisterGauge(w, name, gauge).0)
  {
    if name.Some? {
      var n := name.value;
      if n in w.maps.gauges {
        var m2 := w.maps.(gauges := w.maps.gauges[n := PrometheusGaugeWrapper(n, gauge, w.maps.gauges[n].inner)]);
        assert RegisterGauge(w, name, gauge).0 == World(m2, w.lib);
        PutGauge(w.maps, n, PrometheusGaugeWrapper(n, gauge, w.maps.gauges[n].inner), m2);
        ReplaceEntryKeepsInv(w, m2, Gauges, n);
      } else {
        var c := GaugeCollector(n);
        var (lib2, id) := Register(w.lib, c);
        if id.Ok? {
          var m2 := w.maps.(gauges := w.maps.gauges[n := PrometheusGaugeWrapper(n, gauge, id.value)]);
          assert RegisterGauge(w, name, gauge).0 == World(m2, lib2);
          PutGauge(w.maps, n, PrometheusGaugeWrapper(n, gauge, id.value), m2);
          AddEntryKeepsInv(w, m2, c, Gauges);
        }
      }
    }
  }

  lemma {:induction false} UnregisterGaugeKeepsInv(w: World, name: Option<string>)
    requires Inv(w)
    ensures Inv(UnregisterGauge(w, name).0)
  {
    if name.Some? && name.value in w.maps.gauges {
      var n := name.value;
      var m2 := w.maps.(gauges := w.maps.gauges - {n});
      assert UnregisterGauge(w, name).0 == World(m2, Unregister(w.lib, Inner(w.maps, Gauges, n)));
      RemoveGauge(w.maps, n, m2);
      RemoveEntryKeepsInv(w, m2, Gauges, n);
    }
  }

  lemma {:induction false} RegisterGaugeSetKeepsInv(w: World, name: Option<string>, gaugeSet: Option<Callback>)
    requires Inv(w)
    ensures Inv(RegisterGaugeSet(w, name, gaugeSet).0)
  {
    if name.Some? && gaugeSet.Some? {
      var n := name.value;
      if n in w.maps.gaugeSets {
        var m2 := w.maps.(gaugeSets := w.maps.gaugeSets[n := PrometheusLabelledGaugeWrapper(gaugeSet.value, w.maps.gaugeSets[n].inner)]);
        assert RegisterGaugeSet(w, name, gaugeSet).0 == World(m2, w.lib);
        PutGaugeSet(w.maps, n, PrometheusLabelledGaugeWrapper(gaugeSet.value, w.maps.gaugeSets[n].inner), m2);
        ReplaceEntryKeepsInv(w, m2, GaugeSets, n);
      } else {
        var c := GaugeSetCollector(n);
        var (lib2, id) := Register(w.lib, c);
        if id.Ok? {
          var m2 := w.maps.(gaugeSets := w.maps.gaugeSets[n := PrometheusLabelledGaugeWrapper(gaugeSet.value, id.value)]);
          assert RegisterGaugeSet(w, name, gaugeSet).0 == World(m2, lib2);
          PutGaugeSet(w.maps, n, PrometheusLabelledGaugeWrapper(gaugeSet.value, id.value), m2);
          AddEntryKeepsInv(w, m2, c, GaugeSets);
        }
      }
    }
  }

  lemma {:induction false} UnregisterGaugeSetKeepsInv(w: World, name: Option<string>)
    requires Inv(w)
    ensures Inv(UnregisterGaugeSet(w, name).0)
  {
    if name.Some? && name.value in w.maps.gaugeSets {
      var n := name.value;
      var m2 := w.maps.(gaugeSets := w.maps.gaugeSets - {n});
      assert UnregisterGaugeSet(w, name).0 == World(m2, Unregister(w.lib, Inner(w.maps, GaugeSets, n)));
      RemoveGaugeSet(w.maps, n, m2);
      RemoveEntryKeepsInv(w, m2, GaugeSets, n);
    }
  }

  lemma {:induction false} GetSummaryKeepsInv(w: World, name: Option<string>, level: DetailLevel)
    requires Inv(w)
    ensures Inv(GetSummary(w, name, level).0)
  {
    if name.Some? && name.value !in w.maps.basicSummaries && name.value !in w.maps.summaries {
      var n := name.value;
      var c := SummaryCollector(n, level);
      var (lib2, id) := Register(w.lib, c);
      if id.Ok? {
        var h := PrometheusSummary(n, id.value);
        var m2 := if level == Basic then w.maps.(basicSummaries := w.maps.basicSummaries[n := h])
                  else w.maps.(summaries := w.maps.summaries[n := h]);
        assert GetSummary(w, name, level).0 == World(m2, lib2);
        PutSummary(w.maps, level, n, h, m2);
        AddEntryKeepsInv(w, m2, c, if level == Basic then BasicSummaries else Summaries);
      }
    }
  }

  lemma {:induction false} GetSummarySetKeepsInv(w: World, name: Option<string>, level: DetailLevel)
    requires Inv(w)
    ensures Inv(GetSummarySet(w, name, level).0)
  {
    if name.Some? && name.value !in w.maps.basicSummarySets && name.value !in w.maps.summarySets {
      var n := name.value;
      var c := SummarySetCollector(n, level);
      var (lib2, id) := Register(w.lib, c);
      if id.Ok? {
        var h := PrometheusLabelledSummary(n, id.value);
        var m2 := if level == Basic then w.maps.(basicSummarySets := w.maps.basicSummarySets[n := h])
                  else w.maps.(summarySets := w.maps.summarySets[n := h]);
        assert GetSummarySet(w, name, level).0 == World(m2, lib2);
        PutSummarySet(w.maps, level, n, h, m2);
        AddEntryKeepsInv(w, m2, c, if level == Basic then BasicSummarySets else SummarySets);
      }
    }
  }

  lemma InitialInv(lib: RegistryState)
    requires Consistent(lib)
    ensures Inv(World(EmptyMaps, lib))
  {
  }
}
