/** What a successful `dump` shows the sink, metric by metric: each gauge
    under its name with the value its callback returned, each key of a
    gauge set's map as `name{key="k"}` with the key's value, and each
    counter series with the value it held before the dump. */
module DumpLaws {
  import opened Base
  import opened PrometheusClient
  import opened Metrics
  import opened WrapperLaws
  import opened ReadPath
  import opened Provider
  import MetricsProperties

  /** A key the map has a value for is one of the map's keys. */
  lemma {:induction false} LastValueHasEntry(entries: seq<(Option<string>, Option<int>)>, key: string)
    requires LastValue(entries, key).Some?
    ensures exists i :: 0 <= i < |entries| && entries[i].0 == Some(key)
    decreases |entries|
  {
    if LastValue(entries[1..], key).Some? {
      LastValueHasEntry(entries[1..], key);
      var i :| 0 <= i < |entries[1..]| && entries[1..][i].0 == Some(key);
      assert entries[i + 1].0 == Some(key);
    } else {
      assert entries[0].0 == Some(key);
    }
  }

  /** The collector registered under `n` is where the enumeration lists it. */
  lemma Listed(w0: World, c: map<Id, Collector>, order: seq<Id>, n: string, id: Id) returns (k: nat)
    requires DumpOrder(c, w0.lib.names, order) && n in w0.lib.names && w0.lib.names[n] == id
    ensures k < |order| && order[k] == id
  {
    assert id in RegisteredIds(w0.lib.names);
    k :| 0 <= k < |order| && order[k] == id;
  }

  /** After a successful dump the sink has seen every gauge under its name,
      with the value its callback returned, null counting as zero. */
  lemma DumpShowsGauge(w0: World, c: map<Id, Collector>, order: seq<Id>, est: Estimator,
                       read: Callback -> Reading, readSet: Callback -> SetReading, n: string)
    requires Inv(w0) && SampledFrom(w0.lib.collectors, c, w0.maps, read, readSet, Pass)
    requires DumpOrder(c, w0.lib.names, order) && n in w0.maps.gauges
    ensures w0.maps.gauges[n].gauge.Some? && read(w0.maps.gauges[n].gauge.value).Returned?
    ensures (n, read(w0.maps.gauges[n].gauge.value).value.GetOr(0)) in DumpEntries(c, order, est)
  {
    var c0, g := w0.lib.collectors, w0.maps.gauges[n];
    assert n in Names(w0.maps, Gauges);
    assert Backs(w0.lib, n, g.inner, GaugeKind, []);
    assert Reads(g.gauge, read);
    var k := Listed(w0, c, order, n, g.inner);
    assert GaugeSampled(c0, c, g, read);
    SampleGaugeLaw(c0[g.inner], g.gauge, read);
    UnlabelledInDump(c, order, est, k);
  }

  /** After a successful dump the sink has seen, for every key of every
      gauge set's map, `name{key="k"}` with the key's value, null counting
      as zero. */
  lemma DumpShowsGaugeSetKey(w0: World, c: map<Id, Collector>, order: seq<Id>, est: Estimator,
                             read: Callback -> Reading, readSet: Callback -> SetReading, n: string, key: string)
    requires Inv(w0) && SampledFrom(w0.lib.collectors, c, w0.maps, read, readSet, Pass)
    requires DumpOrder(c, w0.lib.names, order) && n in w0.maps.gaugeSets
    ensures readSet(w0.maps.gaugeSets[n].gaugeSet).ReturnedMap?
    ensures var v := LastValue(readSet(w0.maps.gaugeSets[n].gaugeSet).entries, key);
      v.Some? ==> (n + "{key=\"" + key + "\"}", v.value) in DumpEntries(c, order, est)
  {
    var c0, g := w0.lib.collectors, w0.maps.gaugeSets[n];
    assert n in Names(w0.maps, GaugeSets);
    assert Backs(w0.lib, n, g.inner, GaugeKind, LABELS);
    assert SetReads(g.gaugeSet, readSet);
    var entries := readSet(g.gaugeSet).entries;
    var v := LastValue(entries, key);
    if v.Some? {
      var k := Listed(w0, c, order, n, g.inner);
      assert GaugeSetSampled(c0, c, g, readSet);
      SampleGaugeSetLaw(c0[g.inner], g.gaugeSet, readSet);
      SetEntriesCreatesSeries(c0[g.inner], entries);
      LastValueHasEntry(entries, key);
      var i :| 0 <= i < |entries| && entries[i].0 == Some(key);
      assert ChildIndex(c[g.inner].children, [entries[i].0.value]).Some?;
      assert ValueOf(c[g.inner], [key]) == AfterEntries(c0[g.inner], entries, [key]);
      LabelledInDump(c, order, est, k, key);
    }
  }

  /** A counter's backend object is not one a gauge or a gauge set wraps,
      so sampling leaves it as it was. */
  lemma SamplingSparesCounters(w0: World, c: map<Id, Collector>, f: Family, n: string,
                               read: Callback -> Reading, readSet: Callback -> SetReading, o: Outcome)
    requires Inv(w0) && SampledFrom(w0.lib.collectors, c, w0.maps, read, readSet, o)
    requires f == Counters || f == CounterSets
    requires n in Names(w0.maps, f)
    ensures Inner(w0.maps, f, n) in c && c[Inner(w0.maps, f, n)] == w0.lib.collectors[Inner(w0.maps, f, n)]
  {
    var id := Inner(w0.maps, f, n);
    assert Backs(w0.lib, n, id, FamilyKind(f), FamilyLabels(f));
    FamiliesApart(w0, f, Gauges);
    FamiliesApart(w0, f, GaugeSets);
    assert id in InnerSet(w0.maps, f);
  }

  /** After a successful dump the sink has seen every counter under its
      name, with the count it held before the dump. */
  lemma DumpShowsCounter(w0: World, c: map<Id, Collector>, order: seq<Id>, est: Estimator,
                         read: Callback -> Reading, readSet: Callback -> SetReading, n: string)
    requires Inv(w0) && SampledFrom(w0.lib.collectors, c, w0.maps, read, readSet, Pass)
    requires DumpOrder(c, w0.lib.names, order) && n in w0.maps.counters
    ensures w0.maps.counters[n].inner in w0.lib.collectors
    ensures (n, ValueOf(w0.lib.collectors[w0.maps.counters[n].inner], [])) in DumpEntries(c, order, est)
  {
    var h := w0.maps.counters[n];
    assert n in Names(w0.maps, Counters) && Inner(w0.maps, Counters, n) == h.inner;
    assert Backs(w0.lib, n, h.inner, CounterKind, []);
    SamplingSparesCounters(w0, c, Counters, n, read, readSet, Pass);
    var k := Listed(w0, c, order, n, h.inner);
    UnlabelledInDump(c, order, est, k);
  }

  /** After a successful dump the sink has seen every series of every
      counter set as `name{key="k"}`, with the count it held before the dump. */
  lemma DumpShowsCounterSetSeries(w0: World, c: map<Id, Collector>, order: seq<Id>, est: Estimator,
                                  read: Callback -> Reading, readSet: Callback -> SetReading, n: string, key: string)
    requires Inv(w0) && SampledFrom(w0.lib.collectors, c, w0.maps, read, readSet, Pass)
    requires DumpOrder(c, w0.lib.names, order) && n in w0.maps.counterSets
    requires w0.maps.counterSets[n].inner in w0.lib.collectors
    requires ChildIndex(w0.lib.collectors[w0.maps.counterSets[n].inner].children, [key]).Some?
    ensures (n + "{key=\"" + key + "\"}", ValueOf(w0.lib.collectors[w0.maps.counterSets[n].inner], [key]))
            in DumpEntries(c, order, est)
  {
    var h := w0.maps.counterSets[n];
    assert n in Names(w0.maps, CounterSets) && Inner(w0.maps, CounterSets, n) == h.inner;
    assert Backs(w0.lib, n, h.inner, CounterKind, LABELS);
    SamplingSparesCounters(w0, c, CounterSets, n, read, readSet, Pass);
    var k := Listed(w0, c, order, n, h.inner);
    LabelledInDump(c, order, est, k, key);
  }
}
