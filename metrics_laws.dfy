/** The behaviour of the context's operations, one law at a time. */
module MetricsLaws {
  import opened Base
  import opened PrometheusClient
  import opened Metrics
  import opened MetricsProperties

  /** The other seven maps are as they were. */
  ghost predicate OthersUnchanged(m: Maps, m2: Maps, f0: Family) {
    forall f :: f != f0 ==> Names(m2, f) == Names(m, f) && forall n :: n in Names(m, f) ==> Inner(m2, f, n) == Inner(m, f, n)
  }

  // ----- Get-or-create -----

  /** `getCounter` returns the counter filed under the name if there is one,
      and leaves everything as it is; otherwise it registers one new counter
      under a fresh identity, which fails exactly when some other collector
      already holds the name. Asking again returns the same counter. */
  lemma {:induction false} GetCounterLaw(w: World, n: string)
    requires Inv(w)
    ensures var (w1, r) := GetCounter(w, Some(n));
      && (n in w.maps.counters ==> w1 == w && r == Ok(w.maps.counters[n]))
      && (n !in w.maps.counters ==>
            && (r.Ok? <==> n !in w.lib.names)
            && (r.Ok? ==>
                  && r.value == PrometheusCounter(n, w.lib.nextId)
                  && w.lib.nextId !in w.lib.collectors
                  && w1.lib.collectors == w.lib.collectors[w.lib.nextId := CounterCollector(n)]
                  && w1.lib.names == w.lib.names[n := w.lib.nextId]
                  && OthersUnchanged(w.maps, w1.maps, Counters)))
      && (r.Ok? ==> Backs(w1.lib, n, r.value.inner, CounterKind, []) && GetCounter(w1, Some(n)) == (w1, r))
  {
    var (w1, r) := GetCounter(w, Some(n));
    GetCounterKeepsInv(w, Some(n));
    if r.Ok? {
      assert n in Names(w1.maps, Counters);
    }
  }

  /** `getCounterSet`, as `getCounter`, for a counter labelled `key`. */
  lemma {:induction false} GetCounterSetLaw(w: World, n: string)
    requires Inv(w)
    ensures var (w1, r) := GetCounterSet(w, Some(n));
      && (n in w.maps.counterSets ==> w1 == w && r == Ok(w.maps.counterSets[n]))
      && (n !in w.maps.counterSets ==>
            && (r.Ok? <==> n !in w.lib.names)
            && (r.Ok? ==>
                  && r.value == PrometheusLabelledCounter(n, w.lib.nextId)
                  && w1.lib.collectors == w.lib.collectors[w.lib.nextId := CounterSetCollector(n)]
                  && w1.lib.names == w.lib.names[n := w.lib.nextId]
                  && OthersUnchanged(w.maps, w1.maps, CounterSets)))
      && (r.Ok? ==> Backs(w1.lib, n, r.value.inner, CounterKind, LABELS) && GetCounterSet(w1, Some(n)) == (w1, r))
  {
    var (w1, r) := GetCounterSet(w, Some(n));
    GetCounterSetKeepsInv(w, Some(n));
    if r.Ok? {
      assert n in Names(w1.maps, CounterSets);
    }
  }

  /** The map a summary of `level` is filed in. */
  function SummaryMap(m: Maps, level: DetailLevel): map<string, PrometheusSummary> {
    if level == Basic then m.basicSummaries else m.summaries
  }

  function SummarySetMap(m: Maps, level: DetailLevel): map<string, PrometheusLabelledSummary> {
    if level == Basic then m.basicSummarySets else m.summarySets
  }

  /** A name filed in any summary map is registered; a free name is in none. */
  lemma SummaryNamesTaken(w: World, n: string)
    requires Inv(w)
    ensures (|| n in w.maps.summaries || n in w.maps.basicSummaries
             || n in w.maps.summarySets || n in w.maps.basicSummarySets) ==> n in w.lib.names
  {
    if n in w.maps.summaries { assert n in Names(w.maps, Summaries); }
    if n in w.maps.basicSummaries { assert n in Names(w.maps, BasicSummaries); }
    if n in w.maps.summarySets { assert n in Names(w.maps, SummarySets); }
    if n in w.maps.basicSummarySets { assert n in Names(w.maps, BasicSummarySets); }
  }

  /** Maps that differ only in map `f` leave the other seven unchanged. */
  lemma OthersUnchangedByPut(m: Maps, m2: Maps, f0: Family)
    requires m2 == (match f0
      case Gauges => m.(gauges := m2.gauges)
      case GaugeSets => m.(gaugeSets := m2.gaugeSets)
      case Counters => m.(counters := m2.counters)
      case CounterSets => m.(counterSets := m2.counterSets)
      case BasicSummaries => m.(basicSummaries := m2.basicSummaries)
      case Summaries => m.(summaries := m2.summaries)
      case BasicSummarySets => m.(basicSummarySets := m2.basicSummarySets)
      case SummarySets => m.(summarySets := m2.summarySets))
    ensures OthersUnchanged(m, m2, f0)
  {
  }

  /** `getSummary` returns the summary filed under the name at the level
      if there is one, and leaves everything as it is; otherwise it
      registers one new sketch measuring the quantiles of the level, which
      fails exactly when some collector (a summary of the other level
      included) already holds the name. Asking again returns the same
      summary. */
  lemma {:induction false} GetSummaryLaw(w: World, n: string, level: DetailLevel)
    requires Inv(w)
    ensures var (w1, r) := GetSummary(w, Some(n), level);
      && (n in SummaryMap(w.maps, level) ==> w1 == w && r == Ok(SummaryMap(w.maps, level)[n]))
      && (n !in SummaryMap(w.maps, level) ==>
            && (r.Ok? <==> n !in w.lib.names)
            && (r.Ok? ==>
                  && r.value == PrometheusSummary(n, w.lib.nextId)
                  && SummaryMap(w1.maps, level) == SummaryMap(w.maps, level)[n := r.value]
                  && w1.lib.collectors == w.lib.collectors[w.lib.nextId := SummaryCollector(n, level)]
                  && w1.lib.names == w.lib.names[n := w.lib.nextId]
                  && OthersUnchanged(w.maps, w1.maps, if level == Basic then BasicSummaries else Summaries)))
      && (r.Ok? ==> Backs(w1.lib, n, r.value.inner, SummaryKind(Quantiles(level)), []))
      && (r.Ok? ==> GetSummary(w1, Some(n), level) == (w1, r))
      && (r.Err? ==> w1 == w)
  {
    var (w1, r) := GetSummary(w, Some(n), level);
    GetSummaryKeepsInv(w, Some(n), level);
    if n !in SummaryMap(w.maps, level) {
      SummaryNamesTaken(w, n);
      if r.Ok? {
        var f := if level == Basic then BasicSummaries else Summaries;
        OthersUnchangedByPut(w.maps, w1.maps, f);
      }
    }
    if r.Ok? {
      assert n in Names(w1.maps, if level == Basic then BasicSummaries else Summaries);
    }
  }

  /** `getSummarySet`, as `getSummary`, for a sketch labelled `key`. */
  lemma {:induction false} GetSummarySetLaw(w: World, n: string, level: DetailLevel)
    requires Inv(w)
    ensures var (w1, r) := GetSummarySet(w, Some(n), level);
      && (n in SummarySetMap(w.maps, level) ==> w1 == w && r == Ok(SummarySetMap(w.maps, level)[n]))
      && (n !in SummarySetMap(w.maps, level) ==>
            && (r.Ok? <==> n !in w.lib.names)
            && (r.Ok? ==>
                  && r.value == PrometheusLabelledSummary(n, w.lib.nextId)
                  && SummarySetMap(w1.maps, level) == SummarySetMap(w.maps, level)[n := r.value]
                  && w1.lib.collectors == w.lib.collectors[w.lib.nextId := SummarySetCollector(n, level)]
                  && w1.lib.names == w.lib.names[n := w.lib.nextId]
                  && OthersUnchanged(w.maps, w1.maps, if level == Basic then BasicSummarySets else SummarySets)))
      && (r.Ok? ==> Backs(w1.lib, n, r.value.inner, SummaryKind(Quantiles(level)), LABELS))
      && (r.Ok? ==> GetSummarySet(w1, Some(n), level) == (w1, r))
      && (r.Err? ==> w1 == w)
  {
    var (w1, r) := GetSummarySet(w, Some(n), level);
    GetSummarySetKeepsInv(w, Some(n), level);
    if n !in SummarySetMap(w.maps, level) {
      SummaryNamesTaken(w, n);
      if r.Ok? {
        var f := if level == Basic then BasicSummarySets else SummarySets;
        OthersUnchangedByPut(w.maps, w1.maps, f);
      }
    }
    if r.Ok? {
      assert n in Names(w1.maps, if level == Basic then BasicSummarySets else SummarySets);
    }
  }

  /** A name held by a summary of one level is refused for the other level,
      with the source's message, and nothing changes. */
  lemma {:induction false} SummaryLevelsExclusive(w: World, n: string, level: DetailLevel)
    requires Inv(w)
    ensures n in w.maps.summaries && level == Basic ==>
      GetSummary(w, Some(n), level) == (w, Err(IllegalArgument("Already registered a non basic summary as " + n)))
    ensures n in w.maps.basicSummaries && level == Advanced ==>
      GetSummary(w, Some(n), level) == (w, Err(IllegalArgument("Already registered a basic summary as " + n)))
    ensures n in w.maps.summarySets && level == Basic ==>
      GetSummarySet(w, Some(n), level) == (w, Err(IllegalArgument("Already registered a non basic summary set as " + n)))
    ensures n in w.maps.basicSummarySets && level == Advanced ==>
      GetSummarySet(w, Some(n), level) == (w, Err(IllegalArgument("Already registered a basic summary set as " + n)))
  {
    if n in w.maps.summaries && n in w.maps.basicSummaries {
      FamiliesExclusive(w, n, Summaries, BasicSummaries);
    }
    if n in w.maps.summarySets && n in w.maps.basicSummarySets {
      FamiliesExclusive(w, n, SummarySets, BasicSummarySets);
    }
  }

  // ----- Gauges -----

  /** Registering a gauge under a name that has one replaces the callback
      and keeps the backend gauge and the registry as they are; under a
      free name it registers one new backend gauge. */
  lemma {:induction false} RegisterGaugeLaw(w: World, n: string, g: Option<Callback>)
    requires Inv(w)
    ensures var (w1, o) := RegisterGauge(w, Some(n), g);
      && (n in w.maps.gauges ==>
            o == Pass && w1.lib == w.lib
            && w1.maps == w.maps.(gauges := w.maps.gauges[n := PrometheusGaugeWrapper(n, g, w.maps.gauges[n].inner)]))
      && (n !in w.maps.gauges ==>
            && (o.Pass? <==> n !in w.lib.names)
            && (o.Pass? ==>
                  && w1.maps.gauges == w.maps.gauges[n := PrometheusGaugeWrapper(n, g, w.lib.nextId)]
                  && w1.lib.collectors == w.lib.collectors[w.lib.nextId := GaugeCollector(n)]
                  && w1.lib.names == w.lib.names[n := w.lib.nextId]
                  && OthersUnchanged(w.maps, w1.maps, Gauges)))
      && (o.Pass? ==> n in w1.maps.gauges && w1.maps.gauges[n].gauge == g
                      && Backs(w1.lib, n, w1.maps.gauges[n].inner, GaugeKind, []))
  {
    RegisterGaugeKeepsInv(w, Some(n), g);
    var (w1, o) := RegisterGauge(w, Some(n), g);
    if o.Pass? {
      assert n in Names(w1.maps, Gauges);
    }
  }

  /** Unregistering a gauge removes it from the context and its name from
      the registry, and touches no other metric; a name without a gauge
      changes nothing. */
  lemma {:induction false} UnregisterGaugeLaw(w: World, n: string)
    requires Inv(w)
    ensures var (w1, o) := UnregisterGauge(w, Some(n));
      && o == Pass
      && (n !in w.maps.gauges ==> w1 == w)
      && (n in w.maps.gauges ==>
            && w1.maps.gauges == w.maps.gauges - {n}
            && OthersUnchanged(w.maps, w1.maps, Gauges)
            && n !in w1.lib.names
            && (forall k :: k in w1.lib.names <==> k in w.lib.names && k != n)
            && (forall k :: k in w1.lib.names ==> w1.lib.names[k] == w.lib.names[k])
            && w1.lib.collectors == w.lib.collectors && w1.lib.nextId == w.lib.nextId)
  {
    if n in w.maps.gauges {
      assert Backs(w.lib, n, Inner(w.maps, Gauges, n), GaugeKind, []);
    }
  }

  /** Registering a gauge under a free name and unregistering it leaves the
      context and the registry's names as they were. */
  lemma {:induction false} GaugeRegisterUnregister(w: World, n: string, g: Option<Callback>)
    requires Inv(w) && n !in w.lib.names
    ensures var w2 := UnregisterGauge(RegisterGauge(w, Some(n), g).0, Some(n)).0;
      w2.maps == w.maps && w2.lib.names == w.lib.names
  {
    FreeNameUnused(w, n);
    assert n !in Names(w.maps, Gauges);
    var w1 := RegisterGauge(w, Some(n), g).0;
    var id := w.lib.nextId;
    assert w1.lib.names == w.lib.names[n := id];
    assert w1.maps.gauges == w.maps.gauges[n := PrometheusGaugeWrapper(n, g, id)];
    var w2 := UnregisterGauge(w1, Some(n)).0;
    assert w2.maps.gauges == w.maps.gauges;
    forall k | k in w.lib.names ensures w.lib.names[k] != id {
      assert w.lib.names[k] in w.lib.collectors;
    }
    assert w2.lib.names == w.lib.names;
  }

  /** Registering a gauge set replaces the callback under a name that has
      one, and a null gauge set is refused with the source's message. */
  lemma {:induction false} RegisterGaugeSetLaw(w: World, n: string, gs: Option<Callback>)
    requires Inv(w)
    ensures var (w1, o) := RegisterGaugeSet(w, Some(n), gs);
      && (gs.None? ==> w1 == w && o == Fail(NullPointer("Cannot register a null GaugeSet for " + n)))
      && (gs.Some? && n in w.maps.gaugeSets ==>
            o == Pass && w1.lib == w.lib
            && w1.maps == w.maps.(gaugeSets := w.maps.gaugeSets[n := PrometheusLabelledGaugeWrapper(gs.value, w.maps.gaugeSets[n].inner)]))
      && (gs.Some? && n !in w.maps.gaugeSets ==>
            && (o.Pass? <==> n !in w.lib.names)
            && (o.Pass? ==>
                  && w1.maps.gaugeSets == w.maps.gaugeSets[n := PrometheusLabelledGaugeWrapper(gs.value, w.lib.nextId)]
                  && w1.lib.collectors == w.lib.collectors[w.lib.nextId := GaugeSetCollector(n)]
                  && w1.lib.names == w.lib.names[n := w.lib.nextId]
                  && OthersUnchanged(w.maps, w1.maps, GaugeSets)))
      && (o.Pass? ==> n in w1.maps.gaugeSets && w1.maps.gaugeSets[n].gaugeSet == gs.value
                      && Backs(w1.lib, n, w1.maps.gaugeSets[n].inner, GaugeKind, LABELS))
  {
    RegisterGaugeSetKeepsInv(w, Some(n), gs);
    var (w1, o) := RegisterGaugeSet(w, Some(n), gs);
    if o.Pass? {
      assert n in Names(w1.maps, GaugeSets);
    }
  }

  /** Unregistering a gauge set removes it and its name, and nothing else. */
  lemma {:induction false} UnregisterGaugeSetLaw(w: World, n: string)
    requires Inv(w)
    ensures var (w1, o) := UnregisterGaugeSet(w, Some(n));
      && o == Pass
      && (n !in w.maps.gaugeSets ==> w1 == w)
      && (n in w.maps.gaugeSets ==>
            && w1.maps.gaugeSets == w.maps.gaugeSets - {n}
            && OthersUnchanged(w.maps, w1.maps, GaugeSets)
            && (forall k :: k in w1.lib.names <==> k in w.lib.names && k != n)
            && (forall k :: k in w1.lib.names ==> w1.lib.names[k] == w.lib.names[k])
            && w1.lib.collectors == w.lib.collectors && w1.lib.nextId == w.lib.nextId)
  {
    if n in w.maps.gaugeSets {
      assert Backs(w.lib, n, Inner(w.maps, GaugeSets, n), GaugeKind, LABELS);
    }
  }

  // ----- Null names -----

  /** Every operation refuses a null name, with the source's message where
      it gives one, and changes nothing. */
  lemma NullNamesRefused(w: World, g: Option<Callback>, level: DetailLevel)
    ensures GetCounter(w, None) == (w, Err(NullPointer("")))
    ensures GetCounterSet(w, None) == (w, Err(NullPointer("Cannot register a CounterSet with null name")))
    ensures RegisterGauge(w, None, g) == (w, Fail(NullPointer("")))
    ensures UnregisterGauge(w, None) == (w, Fail(NullPointer("")))
    ensures RegisterGaugeSet(w, None, g) == (w, Fail(NullPointer("Cannot register a GaugeSet with null name")))
    ensures UnregisterGaugeSet(w, None) == (w, Fail(NullPointer("Cannot unregister GaugeSet with null name")))
    ensures GetSummary(w, None, level) == (w, Err(NullPointer("")))
    ensures GetSummarySet(w, None, level) == (w, Err(NullPointer("")))
  {
  }
}
