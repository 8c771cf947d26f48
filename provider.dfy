/** `PrometheusMetricsProvider`: owns the root context and the registry,
    samples every gauge before a read, dumps the registry's samples to a
    sink, and rotates the summaries on each tick of its scheduler. */
module Provider {
  import opened Base
  import opened PrometheusClient
  import opened PrometheusRegistry
  import opened Metrics
  import opened ContextImpl
  import opened DumpKeys
  import opened WrapperLaws
  import opened ReadPath
  import MetricsProperties

  /** The backend objects wrapped by the entries of map `f` filed under `names`. */
  ghost function InnersOf(m: Maps, f: Family, names: set<string>): set<Id> {
    set n | n in names && n in Names(m, f) :: Inner(m, f, n)
  }

  /** Every object is still what it was built as, and well formed. */
  ghost predicate Reshaped(c0: map<Id, Collector>, c: map<Id, Collector>) {
    c.Keys == c0.Keys && forall id :: id in c0 ==> SameConfig(c0[id], c[id]) && WellFormed(c[id])
  }

  /** Sampling only sets values: the invariant survives it. */
  lemma ReshapedKeepsInv(w0: World, lib: RegistryState)
    requires Inv(w0) && Reshaped(w0.lib.collectors, lib.collectors)
    requires lib.names == w0.lib.names && lib.nextId == w0.lib.nextId
    ensures Inv(World(w0.maps, lib))
  {
    MetricsProperties.ReshapeKeepsInv(w0, lib);
  }

  /** Taking one more name off the to-do set of a loop over a map's names. */
  lemma Advance(names: set<string>, todo: set<string>, n: string)
    requires n in todo && todo <= names
    ensures names - (todo - {n}) == (names - todo) + {n} && |todo - {n}| < |todo|
  {
  }

  /** Only objects in `a` moved, and `a` lies within `b`: only objects in `b` moved. */
  lemma UntouchedWithin(c0: map<Id, Collector>, c: map<Id, Collector>, a: set<Id>, b: set<Id>)
    requires Untouched(c0, c, a) && a <= b
    ensures Untouched(c0, c, b)
  {
  }

  /** One more name adds its entry's object. */
  lemma InnersOfAdd(m: Maps, f: Family, done: set<string>, n: string)
    requires n in Names(m, f)
    ensures InnersOf(m, f, done + {n}) == InnersOf(m, f, done) + {Inner(m, f, n)}
  {
  }

  /** An entry whose object no other entry wraps is not among the objects
      of the other names. */
  lemma InnersOfExcludes(m: Maps, f: Family, done: set<string>, n: string)
    requires n in Names(m, f) && n !in done
    requires forall n2 :: n2 in Names(m, f) && n2 != n ==> Inner(m, f, n2) != Inner(m, f, n)
    ensures Inner(m, f, n) !in InnersOf(m, f, done)
  {
  }

  lemma InnersWithin(m: Maps, f: Family, names: set<string>)
    ensures InnersOf(m, f, names) <= InnerSet(m, f)
  {
  }

  /** Where the first loop of `sampleGauges` stands once the gauges filed
      under `done` have been sampled: each of them could be read and holds
      its reading, and nothing else moved. */
  ghost predicate GaugesProgress(w0: World, c: map<Id, Collector>, done: set<string>, read: Callback -> Reading) {
    && Reshaped(w0.lib.collectors, c)
    && Untouched(w0.lib.collectors, c, InnersOf(w0.maps, Gauges, done))
    && forall n :: n in done ==> n in w0.maps.gauges && Reads(w0.maps.gauges[n].gauge, read)
                                 && GaugeSampled(w0.lib.collectors, c, w0.maps.gauges[n], read)
  }

  /** Sampling one more gauge: it has not moved yet, and sampling it either
      fails without changing it, or extends the progress. */
  lemma GaugeStep(w0: World, c: map<Id, Collector>, done: set<string>, n: string, read: Callback -> Reading)
    requires GaugesProgress(w0, c, done, read) && n in w0.maps.gauges && n !in done
    requires Backs(w0.lib, n, Inner(w0.maps, Gauges, n), GaugeKind, [])
    requires forall n2 :: n2 in Names(w0.maps, Gauges) && n2 != n ==> Inner(w0.maps, Gauges, n2) != Inner(w0.maps, Gauges, n)
    ensures var g := w0.maps.gauges[n];
      && g.inner in c && c[g.inner] == w0.lib.collectors[g.inner] && WellFormed(c[g.inner])
      && var (d, o) := SampleGauge(c[g.inner], g.gauge, read);
         && (o.Pass? <==> Reads(g.gauge, read))
         && (o.Fail? ==> c[g.inner := d] == c)
         && (o.Pass? ==> GaugesProgress(w0, c[g.inner := d], done + {n}, read))
  {
    var c0, g := w0.lib.collectors, w0.maps.gauges[n];
    assert n in Names(w0.maps, Gauges) && Inner(w0.maps, Gauges, n) == g.inner;
    InnersOfExcludes(w0.maps, Gauges, done, n);
    assert g.inner in c && c[g.inner] == w0.lib.collectors[g.inner] && WellFormed(c[g.inner]);
    SampleGaugeLaw(c0[g.inner], g.gauge, read);
    var (d, o) := SampleGauge(c[g.inner], g.gauge, read);
    assert (o.Pass? <==> Reads(g.gauge, read));
    if o.Fail? {
      assert c[g.inner := d] == c;
    }
    if o.Pass? {
      var c2 := c[g.inner := d];
      InnersOfAdd(w0.maps, Gauges, done, n);
      assert Reshaped(c0, c2);
      assert Untouched(c0, c2, InnersOf(w0.maps, Gauges, done + {n}));
      forall n2 | n2 in done
        ensures GaugeSampled(c0, c2, w0.maps.gauges[n2], read)
      {
        var i2 := w0.maps.gauges[n2].inner;
        assert i2 != g.inner;
        assert c2[i2] == c[i2];
      }
      assert GaugeSampled(c0, c2, g, read);
    }
  }

  /** Where the second loop of `sampleGauges` stands once the gauge sets
      filed under `done` have been sampled. */
  ghost predicate GaugeSetsProgress(w0: World, c: map<Id, Collector>, done: set<string>, readSet: Callback -> SetReading) {
    && Reshaped(w0.lib.collectors, c)
    && Untouched(w0.lib.collectors, c, InnersOf(w0.maps, GaugeSets, done))
    && forall n :: n in done ==> n in w0.maps.gaugeSets && SetReads(w0.maps.gaugeSets[n].gaugeSet, readSet)
                                 && GaugeSetSampled(w0.lib.collectors, c, w0.maps.gaugeSets[n], readSet)
  }

  /** Sampling one more gauge set: it has not moved yet; sampling it moves
      only it, and when it succeeds extends the progress. */
  lemma GaugeSetStep(w0: World, c: map<Id, Collector>, done: set<string>, n: string, readSet: Callback -> SetReading)
    requires GaugeSetsProgress(w0, c, done, readSet) && n in w0.maps.gaugeSets && n !in done
    requires Backs(w0.lib, n, Inner(w0.maps, GaugeSets, n), GaugeKind, LABELS)
    requires forall n2 :: n2 in Names(w0.maps, GaugeSets) && n2 != n ==> Inner(w0.maps, GaugeSets, n2) != Inner(w0.maps, GaugeSets, n)
    ensures var g := w0.maps.gaugeSets[n];
      && g.inner in c && c[g.inner] == w0.lib.collectors[g.inner] && WellFormed(c[g.inner])
      && var (d, o) := SampleGaugeSet(c[g.inner], g.gaugeSet, readSet);
         && (o.Pass? <==> SetReads(g.gaugeSet, readSet))
         && Reshaped(w0.lib.collectors, c[g.inner := d])
         && Untouched(w0.lib.collectors, c[g.inner := d], InnersOf(w0.maps, GaugeSets, done + {n}))
         && (o.Pass? ==> GaugeSetsProgress(w0, c[g.inner := d], done + {n}, readSet))
         && (o.Fail? ==> !GaugeSetsRead(w0.maps, readSet)
                         && Untouched(w0.lib.collectors, c[g.inner := d], InnerSet(w0.maps, GaugeSets)))
  {
    var c0, g := w0.lib.collectors, w0.maps.gaugeSets[n];
    assert n in Names(w0.maps, GaugeSets) && Inner(w0.maps, GaugeSets, n) == g.inner;
    InnersOfExcludes(w0.maps, GaugeSets, done, n);
    assert g.inner in c && c[g.inner] == w0.lib.collectors[g.inner] && WellFormed(c[g.inner]);
    SampleGaugeSetLaw(c0[g.inner], g.gaugeSet, readSet);
    var (d, o) := SampleGaugeSet(c[g.inner], g.gaugeSet, readSet);
    assert (o.Pass? <==> SetReads(g.gaugeSet, readSet));
    var c2 := c[g.inner := d];
    InnersOfAdd(w0.maps, GaugeSets, done, n);
    assert Reshaped(c0, c2);
    assert Untouched(c0, c2, InnersOf(w0.maps, GaugeSets, done + {n}));
    if o.Fail? {
      InnersWithin(w0.maps, GaugeSets, done + {n});
      UntouchedWithin(c0, c2, InnersOf(w0.maps, GaugeSets, done + {n}), InnerSet(w0.maps, GaugeSets));
    }
    if o.Pass? {
      forall n2 | n2 in done
        ensures GaugeSetSampled(c0, c2, w0.maps.gaugeSets[n2], readSet)
      {
        var i2 := w0.maps.gaugeSets[n2].inner;
        assert i2 != g.inner;
        assert c2[i2] == c[i2];
      }
      assert GaugeSetSampled(c0, c2, g, readSet);
    }
  }

  /** Under the invariant two maps never share a backend object. */
  lemma FamiliesApart(w: World, f: Family, g: Family)
    requires Inv(w) && f != g
    ensures InnerSet(w.maps, f) !! InnerSet(w.maps, g)
  {
    forall n, n2 | n in Names(w.maps, f) && n2 in Names(w.maps, g)
      ensures Inner(w.maps, f, n) != Inner(w.maps, g, n2)
    {
      if Inner(w.maps, f, n) == Inner(w.maps, g, n2) {
        MetricsProperties.InnersDistinct(w, f, g, n, n2);
      }
    }
  }

  // ----- The summary rotation -----

  /** Where one line of the tick stands once the objects of the entries
      filed under `done` have been rotated, in the order `walked`. */
  ghost predicate RotateProgress(w0: World, f: Family, c: map<Id, Collector>, done: set<string>, walked: seq<Id>) {
    && Reshaped(w0.lib.collectors, c)
    && Distinct(walked)
    && (forall x :: x in walked <==> x in InnersOf(w0.maps, f, done))
    && Rotated(w0.lib.collectors, c, walked)
  }

  /** What the invariant says of one entry: it wraps the object registered
      under its name, built as its map builds them, and no other entry of
      its map wraps that object. */
  lemma EntryApart(w0: World, f: Family, n: string)
    requires Inv(w0) && n in Names(w0.maps, f)
    ensures Backs(w0.lib, n, Inner(w0.maps, f, n), FamilyKind(f), FamilyLabels(f))
    ensures forall n2 :: n2 in Names(w0.maps, f) && n2 != n ==> Inner(w0.maps, f, n2) != Inner(w0.maps, f, n)
  {
    assert Backs(w0.lib, n, Inner(w0.maps, f, n), FamilyKind(f), FamilyLabels(f));
    forall n2 | n2 in Names(w0.maps, f) && n2 != n ensures Inner(w0.maps, f, n2) != Inner(w0.maps, f, n) {
      if Inner(w0.maps, f, n2) == Inner(w0.maps, f, n) {
        MetricsProperties.InnersDistinct(w0, f, f, n2, n);
      }
    }
  }

  /** Rotating the object of one more entry: it has not been rotated yet,
      and rotating it extends the progress. */
  lemma RotateStep(w0: World, f: Family, c: map<Id, Collector>, done: set<string>, walked: seq<Id>, n: string)
    requires RotateProgress(w0, f, c, done, walked) && n in Names(w0.maps, f) && n !in done
    requires Backs(w0.lib, n, Inner(w0.maps, f, n), FamilyKind(f), FamilyLabels(f))
    requires forall n2 :: n2 in Names(w0.maps, f) && n2 != n ==> Inner(w0.maps, f, n2) != Inner(w0.maps, f, n)
    ensures var id := Inner(w0.maps, f, n);
      id in c && id !in walked && RotateProgress(w0, f, c[id := Rotate(c[id])], done + {n}, walked + [id])
  {
    var m, c0, id := w0.maps, w0.lib.collectors, Inner(w0.maps, f, n);
    InnersOfExcludes(m, f, done, n);
    var c2 := c[id := Rotate(c[id])];
    InnersOfAdd(m, f, done, n);
    assert Reshaped(c0, c2);
    assert Rotated(c0, c2, walked + [id]);
  }

  /** Rotating the objects of `a`, then those of `b`, rotates those of `a + b`. */
  lemma RotationsCompose(c0: map<Id, Collector>, c1: map<Id, Collector>, c2: map<Id, Collector>, a: seq<Id>, b: seq<Id>)
    requires Rotated(c0, c1, a) && Rotated(c1, c2, b)
    requires forall x :: x in a ==> x !in b
    ensures Rotated(c0, c2, a + b)
  {
  }

  /** A tick's four lines, each listing one map's objects, concatenate to
      objects listed once each. */
  lemma TickDistinct(w: World, parts: seq<seq<Id>>)
    requires Inv(w) && TickOrdered(w.maps, parts)
    ensures forall x :: x in parts[0] ==> x !in parts[1] && x !in parts[2] && x !in parts[3]
    ensures forall x :: x in parts[1] ==> x !in parts[2] && x !in parts[3]
    ensures forall x :: x in parts[2] ==> x !in parts[3]
    ensures Concat(parts) == parts[0] + parts[1] + parts[2] + parts[3]
  {
    FamiliesApart(w, Summaries, SummarySets);
    FamiliesApart(w, Summaries, BasicSummaries);
    FamiliesApart(w, Summaries, BasicSummarySets);
    FamiliesApart(w, SummarySets, BasicSummaries);
    FamiliesApart(w, SummarySets, BasicSummarySets);
    FamiliesApart(w, BasicSummaries, BasicSummarySets);
    var p1, p2, p3 := parts[..1], parts[..2], parts[..3];
    assert p1[..0] == [] && Concat(p1) == parts[0];
    assert p2[..1] == p1 && Concat(p2) == parts[0] + parts[1];
    assert p3[..2] == p2 && Concat(p3) == parts[0] + parts[1] + parts[2];
  }

  /** The gauge pass, then the gauge-set pass over what it left, make up
      one `sampleGauges`. */
  lemma {:induction false} SamplingComposes(w: World, c1: map<Id, Collector>, c2: map<Id, Collector>,
                                            read: Callback -> Reading, readSet: Callback -> SetReading, o: Outcome)
    requires Inv(w) && GaugesRead(w.maps, read)
    requires Untouched(w.lib.collectors, c1, InnerSet(w.maps, Gauges))
    requires forall n :: n in w.maps.gauges ==> GaugeSampled(w.lib.collectors, c1, w.maps.gauges[n], read)
    requires Untouched(c1, c2, InnerSet(w.maps, GaugeSets))
    requires o.Pass? <==> GaugeSetsRead(w.maps, readSet)
    requires o.Pass? ==> forall n :: n in w.maps.gaugeSets ==> GaugeSetSampled(c1, c2, w.maps.gaugeSets[n], readSet)
    ensures SampledFrom(w.lib.collectors, c2, w.maps, read, readSet, o)
  {
    var c0, m := w.lib.collectors, w.maps;
    FamiliesApart(w, Gauges, GaugeSets);
    forall n | n in m.gauges ensures GaugeSampled(c0, c2, m.gauges[n], read) {
      assert n in Names(m, Gauges) && m.gauges[n].inner in InnerSet(m, Gauges);
    }
    if o.Pass? {
      forall n | n in m.gaugeSets ensures GaugeSetSampled(c0, c2, m.gaugeSets[n], readSet) {
        assert n in Names(m, GaugeSets) && m.gaugeSets[n].inner in InnerSet(m, GaugeSets);
        assert c1[m.gaugeSets[n].inner] == c0[m.gaugeSets[n].inner];
      }
    }
  }

  // ----- The dump -----

  /** `order` lists each collector the registry holds once, each one well formed. */
  ghost predicate DumpOrder(c: map<Id, Collector>, names: map<string, Id>, order: seq<Id>) {
    && (forall i :: 0 <= i < |order| ==> order[i] in c && WellFormed(c[order[i]]))
    && Enumerates(order, RegisteredIds(names))
  }

  /** The pairs of the first `k + 1` samples: those of the first `k`, then the `k`-th's. */
  lemma SampleEntriesStep(samples: seq<Sample>, k: nat)
    requires KeysBuildable(samples) && k < |samples|
    ensures KeysBuildable(samples[..k]) && KeysBuildable(samples[..k + 1])
    ensures SampleEntries(samples[..k + 1]) == SampleEntries(samples[..k]) + [(DumpKey(samples[k]), samples[k].value)]
  {
    assert samples[..k + 1][..k] == samples[..k];
  }

  /** The pairs the sink receives for one collector: a key built by
      `buildKeyForDump` and the value, sample by sample. */
  method CollectorEntries(col: Collector, est: Estimator) returns (batch: seq<(string, int)>)
    requires WellFormed(col)
    ensures batch == SampleEntries(Samples(col, est))
  {
    var samples := Samples(col, est);
    var k := 0;
    batch := [];
    while k < |samples|
      invariant 0 <= k <= |samples|
      invariant batch == SampleEntries(samples[..k])
    {
      var key := BuildKeyForDump(samples[k]);
      SampleEntriesStep(samples, k);
      batch := batch + [(key, samples[k].value)];
      k := k + 1;
    }
    assert samples[..k] == samples;
  }

  /** The pairs the sink receives for the collectors `ids`, which the
      registry enumerates in an order of its own. */
  method DumpCollectors(c: map<Id, Collector>, ids: set<Id>, est: Estimator)
    returns (entries: seq<(string, int)>, ghost order: seq<Id>)
    requires forall id :: id in ids ==> id in c && WellFormed(c[id])
    ensures forall i :: 0 <= i < |order| ==> order[i] in c && WellFormed(c[order[i]])
    ensures Enumerates(order, ids)
    ensures entries == DumpEntries(c, order, est)
  {
    entries, order := [], [];
    var todo := ids;
    while todo != {}
      decreases |todo|
      invariant todo <= ids
      invariant forall i :: 0 <= i < |order| ==> order[i] in c && WellFormed(c[order[i]])
      invariant Distinct(order) && forall x :: x in order <==> x in ids && x !in todo
      invariant entries == DumpEntries(c, order, est)
    {
      var id :| id in todo;
      var batch := CollectorEntries(c[id], est);
      assert (order + [id])[..|order|] == order;
      entries := entries + batch;
      order := order + [id];
      todo := todo - {id};
    }
  }

  class PrometheusMetricsProvider {
    const collectorRegistry: CollectorRegistry
    const rootContext: Context
    var host: string
    var port: int
    var exportJvmInfo: bool
    var workerShutdownTimeoutMs: int
    var summaryRotateSeconds: int

    ghost predicate Valid()
      reads this, rootContext, collectorRegistry
    {
      rootContext.registry == collectorRegistry && rootContext.Valid()
    }

    /** A provider over the given registry, with an empty root context and
        the default configuration. */
    constructor (registry: CollectorRegistry)
      requires registry.Valid()
      ensures Valid() && collectorRegistry == registry && fresh(rootContext) && rootContext.Maps() == EmptyMaps
      ensures host == "0.0.0.0" && port == 7000 && exportJvmInfo
      ensures workerShutdownTimeoutMs == 1000 && summaryRotateSeconds == 60
    {
      collectorRegistry := registry;
      rootContext := new Context(registry);
      host, port, exportJvmInfo := "0.0.0.0", 7000, true;
      workerShutdownTimeoutMs, summaryRotateSeconds := 1000, 60;
    }

    method GetRootContext() returns (r: Context)
      ensures r == rootContext
    {
      r := rootContext;
    }

    /** The first loop of `sampleGauges`: samples every gauge, in the map's
        order, until one throws. */
    method SampleEachGauge(read: Callback -> Reading) returns (o: Outcome)
      requires Valid()
      modifies collectorRegistry
      ensures Valid()
      ensures collectorRegistry.names == old(collectorRegistry.names) && collectorRegistry.nextId == old(collectorRegistry.nextId)
      ensures Untouched(old(collectorRegistry.collectors), collectorRegistry.collectors, InnerSet(rootContext.Maps(), Gauges))
      ensures o.Pass? <==> GaugesRead(rootContext.Maps(), read)
      ensures o.Pass? ==> forall n :: n in rootContext.gauges ==>
        GaugeSampled(old(collectorRegistry.collectors), collectorRegistry.collectors, rootContext.gauges[n], read)
    {
      ghost var w0 := rootContext.State();
      assert w0.lib.collectors == old(collectorRegistry.collectors) && w0.maps == rootContext.Maps();
      var gauges := rootContext.gauges;
      var todo := gauges.Keys;
      InnersWithin(w0.maps, Gauges, gauges.Keys);
      while todo != {}
        decreases |todo|
        invariant todo <= gauges.Keys
        invariant collectorRegistry.Valid()
        invariant collectorRegistry.names == w0.lib.names && collectorRegistry.nextId == w0.lib.nextId
        invariant GaugesProgress(w0, collectorRegistry.collectors, gauges.Keys - todo, read)
      {
        var n :| n in todo;
        ghost var c := collectorRegistry.collectors;
        EntryApart(w0, Gauges, n);
        GaugeStep(w0, c, gauges.Keys - todo, n, read);
        o := gauges[n].Sample(collectorRegistry, read);
        assert collectorRegistry.collectors == c[gauges[n].inner := SampleGauge(c[gauges[n].inner], gauges[n].gauge, read).0];
        if o.Fail? {
          assert !GaugesRead(w0.maps, read);
          InnersWithin(w0.maps, Gauges, gauges.Keys - todo);
          UntouchedWithin(w0.lib.collectors, c, InnersOf(w0.maps, Gauges, gauges.Keys - todo), InnerSet(w0.maps, Gauges));
          ReshapedKeepsInv(w0, collectorRegistry.State());
          assert rootContext.State() == World(w0.maps, collectorRegistry.State());
          assert Valid();
          assert Untouched(old(collectorRegistry.collectors), collectorRegistry.collectors, InnerSet(rootContext.Maps(), Gauges));
          assert !GaugesRead(rootContext.Maps(), read);
          return;
        }
        Advance(gauges.Keys, todo, n);
        todo := todo - {n};
      }
      UntouchedWithin(w0.lib.collectors, collectorRegistry.collectors, InnersOf(w0.maps, Gauges, gauges.Keys), InnerSet(w0.maps, Gauges));
      ReshapedKeepsInv(w0, collectorRegistry.State());
      o := Pass;
    }

    /** The second loop of `sampleGauges`: samples every gauge set, in the
        map's order, until one throws; a set that fails part way keeps the
        series it had already set. */
    method SampleEachGaugeSet(readSet: Callback -> SetReading) returns (o: Outcome)
      requires Valid()
      modifies collectorRegistry
      ensures Valid()
      ensures collectorRegistry.names == old(collectorRegistry.names) && collectorRegistry.nextId == old(collectorRegistry.nextId)
      ensures Untouched(old(collectorRegistry.collectors), collectorRegistry.collectors, InnerSet(rootContext.Maps(), GaugeSets))
      ensures o.Pass? <==> GaugeSetsRead(rootContext.Maps(), readSet)
      ensures o.Pass? ==> forall n :: n in rootContext.gaugeSets ==>
        GaugeSetSampled(old(collectorRegistry.collectors), collectorRegistry.collectors, rootContext.gaugeSets[n], readSet)
    {
      ghost var w0 := rootContext.State();
      assert w0.lib.collectors == old(collectorRegistry.collectors) && w0.maps == rootContext.Maps();
      var gaugeSets := rootContext.gaugeSets;
      var todo := gaugeSets.Keys;
      InnersWithin(w0.maps, GaugeSets, gaugeSets.Keys);
      while todo != {}
        decreases |todo|
        invariant todo <= gaugeSets.Keys
        invariant collectorRegistry.Valid()
        invariant collectorRegistry.names == w0.lib.names && collectorRegistry.nextId == w0.lib.nextId
        invariant GaugeSetsProgress(w0, collectorRegistry.collectors, gaugeSets.Keys - todo, readSet)
      {
        var n :| n in todo;
        ghost var c := collectorRegistry.collectors;
        EntryApart(w0, GaugeSets, n);
        GaugeSetStep(w0, c, gaugeSets.Keys - todo, n, readSet);
        o := gaugeSets[n].Sample(collectorRegistry, readSet);
        assert collectorRegistry.collectors == c[gaugeSets[n].inner := SampleGaugeSet(c[gaugeSets[n].inner], gaugeSets[n].gaugeSet, readSet).0];
        if o.Fail? {
          ReshapedKeepsInv(w0, collectorRegistry.State());
          assert rootContext.State() == World(w0.maps, collectorRegistry.State());
          assert Valid();
          assert Untouched(old(collectorRegistry.collectors), collectorRegistry.collectors, InnerSet(rootContext.Maps(), GaugeSets));
          assert !GaugeSetsRead(rootContext.Maps(), readSet);
          return;
        }
        Advance(gaugeSets.Keys, todo, n);
        todo := todo - {n};
      }
      UntouchedWithin(w0.lib.collectors, collectorRegistry.collectors, InnersOf(w0.maps, GaugeSets, gaugeSets.Keys), InnerSet(w0.maps, GaugeSets));
      ReshapedKeepsInv(w0, collectorRegistry.State());
      o := Pass;
    }

    /** `sampleGauges()`: every gauge, then every gauge set; the first
        exception ends the pass and propagates. */
    method SampleGauges(read: Callback -> Reading, readSet: Callback -> SetReading) returns (o: Outcome)
      requires Valid()
      modifies collectorRegistry
      ensures Valid()
      ensures collectorRegistry.names == old(collectorRegistry.names) && collectorRegistry.nextId == old(collectorRegistry.nextId)
      ensures SampledFrom(old(collectorRegistry.collectors), collectorRegistry.collectors, rootContext.Maps(), read, readSet, o)
    {
      ghost var w0 := rootContext.State();
      assert w0.lib.collectors == old(collectorRegistry.collectors) && w0.maps == rootContext.Maps();
      o := SampleEachGauge(read);
      if o.Fail? {
        UntouchedWithin(w0.lib.collectors, collectorRegistry.collectors, InnerSet(w0.maps, Gauges),
                        InnerSet(w0.maps, Gauges) + InnerSet(w0.maps, GaugeSets));
        return;
      }
      ghost var c1 := collectorRegistry.collectors;
      o := SampleEachGaugeSet(readSet);
      SamplingComposes(w0, c1, collectorRegistry.collectors, read, readSet, o);
    }

    /** One line of the tick: `rotate()` on the object of every entry of
        map `f`, in the map's order. */
    method RotateEach(f: Family) returns (ghost walked: seq<Id>)
      requires Valid()
      modifies collectorRegistry
      ensures Valid()
      ensures collectorRegistry.names == old(collectorRegistry.names) && collectorRegistry.nextId == old(collectorRegistry.nextId)
      ensures Enumerates(walked, InnerSet(rootContext.Maps(), f))
      ensures Rotated(old(collectorRegistry.collectors), collectorRegistry.collectors, walked)
    {
      ghost var w0 := rootContext.State();
      assert w0.lib.collectors == old(collectorRegistry.collectors) && w0.maps == rootContext.Maps();
      var m := Metrics.Maps(rootContext.gauges, rootContext.gaugeSets, rootContext.counters, rootContext.counterSets,
                            rootContext.basicSummaries, rootContext.summaries, rootContext.basicSummarySets, rootContext.summarySets);
      var names := Names(m, f);
      var todo := names;
      walked := [];
      while todo != {}
        decreases |todo|
        invariant todo <= names
        invariant collectorRegistry.Valid()
        invariant collectorRegistry.names == w0.lib.names && collectorRegistry.nextId == w0.lib.nextId
        invariant RotateProgress(w0, f, collectorRegistry.collectors, names - todo, walked)
      {
        var n :| n in todo;
        var id := Inner(m, f, n);
        ghost var c := collectorRegistry.collectors;
        ghost var done := names - todo;
        EntryApart(w0, f, n);
        RotateStep(w0, f, c, done, walked, n);
        collectorRegistry.Rotate(id);
        walked := walked + [id];
        Advance(names, todo, n);
        todo := todo - {n};
      }
      assert InnersOf(m, f, names) == InnerSet(m, f);
      ReshapedKeepsInv(w0, collectorRegistry.State());
      assert rootContext.State() == World(w0.maps, collectorRegistry.State());
    }

    /** One tick of the summary rotation task: the objects of the summaries,
        the summary sets, the basic summaries and the basic summary sets, in
        that order, each rotated once. */
    method RotateSummaries() returns (ghost parts: seq<seq<Id>>)
      requires Valid()
      modifies collectorRegistry
      ensures Valid()
      ensures collectorRegistry.names == old(collectorRegistry.names) && collectorRegistry.nextId == old(collectorRegistry.nextId)
      ensures TickOrdered(rootContext.Maps(), parts)
      ensures Rotated(old(collectorRegistry.collectors), collectorRegistry.collectors, Concat(parts))
    {
      ghost var w0 := rootContext.State();
      ghost var c0 := collectorRegistry.collectors;
      ghost var a := RotateEach(Summaries);
      ghost var c1 := collectorRegistry.collectors;
      ghost var b := RotateEach(SummarySets);
      ghost var c2 := collectorRegistry.collectors;
      ghost var d := RotateEach(BasicSummaries);
      ghost var c3 := collectorRegistry.collectors;
      ghost var e := RotateEach(BasicSummarySets);
      parts := [a, b, d, e];
      assert TickOrdered(w0.maps, parts);
      TickDistinct(w0, parts);
      RotationsCompose(c0, c1, c2, a, b);
      RotationsCompose(c0, c2, c3, a + b, d);
      RotationsCompose(c0, c3, collectorRegistry.collectors, a + b + d, e);
    }

    /** `dump(sink)`: samples the gauges, then hands the sink the key and
        value of every sample of every collector the registry holds, the
        collectors in the registry's order. An exception of the sampling
        propagates before the sink gets anything. */
    method Dump(read: Callback -> Reading, readSet: Callback -> SetReading, est: Estimator)
      returns (o: Outcome, entries: seq<(string, int)>, ghost order: seq<Id>)
      requires Valid()
      modifies collectorRegistry
      ensures Valid()
      ensures collectorRegistry.names == old(collectorRegistry.names) && collectorRegistry.nextId == old(collectorRegistry.nextId)
      ensures SampledFrom(old(collectorRegistry.collectors), collectorRegistry.collectors, rootContext.Maps(), read, readSet, o)
      ensures o.Fail? ==> entries == []
      ensures o.Pass? ==> && DumpOrder(collectorRegistry.collectors, collectorRegistry.names, order)
                          && entries == DumpEntries(collectorRegistry.collectors, order, est)
    {
      entries, order := [], [];
      o := SampleGauges(read, readSet);
      if o.Fail? {
        return;
      }
      assert collectorRegistry.Valid();
      entries, order := DumpCollectors(collectorRegistry.collectors, RegisteredIds(collectorRegistry.names), est);
    }
  }
}
