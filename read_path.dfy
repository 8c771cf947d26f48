/** The read side of the provider as specifications: what one pass of
    `sampleGauges` leaves behind, what one tick of the summary rotation
    does, and the (key, value) pairs `dump` hands its sink. */
module ReadPath {
  import opened Base
  import opened PrometheusClient
  import opened Metrics
  import opened DumpKeys
  import opened WrapperLaws

  // ----- Sampling -----

  /** The gauge has a callback and the callback returns. */
  predicate Reads(gauge: Option<Callback>, read: Callback -> Reading) {
    gauge.Some? && read(gauge.value).Returned?
  }

  /** The gauge set's callback returns a map without a null key. */
  predicate SetReads(gaugeSet: Callback, readSet: Callback -> SetReading) {
    readSet(gaugeSet).ReturnedMap? && NoNullKeys(readSet(gaugeSet).entries)
  }

  predicate GaugesRead(m: Maps, read: Callback -> Reading) {
    forall n :: n in m.gauges ==> Reads(m.gauges[n].gauge, read)
  }

  predicate GaugeSetsRead(m: Maps, readSet: Callback -> SetReading) {
    forall n :: n in m.gaugeSets ==> SetReads(m.gaugeSets[n].gaugeSet, readSet)
  }

  /** The backend objects the wrappers of one map wrap. */
  function InnerSet(m: Maps, f: Family): set<Id> {
    set n | n in Names(m, f) :: Inner(m, f, n)
  }

  /** Only the objects in `ids` may have changed. */
  ghost predicate Untouched(c0: map<Id, Collector>, c: map<Id, Collector>, ids: set<Id>) {
    c.Keys == c0.Keys && forall id :: id in c0 && id !in ids ==> c[id] == c0[id]
  }

  ghost predicate GaugeSampled(c0: map<Id, Collector>, c: map<Id, Collector>, g: PrometheusGaugeWrapper, read: Callback -> Reading) {
    g.inner in c0 && g.inner in c && WellFormed(c0[g.inner]) && c[g.inner] == SampleGauge(c0[g.inner], g.gauge, read).0
  }

  ghost predicate GaugeSetSampled(c0: map<Id, Collector>, c: map<Id, Collector>, g: PrometheusLabelledGaugeWrapper,
                                  readSet: Callback -> SetReading) {
    g.inner in c0 && g.inner in c && WellFormed(c0[g.inner]) && c[g.inner] == SampleGaugeSet(c0[g.inner], g.gaugeSet, readSet).0
  }

  /** What `sampleGauges` leaves behind: only gauges moved; the pass returns
      normally exactly when every gauge and gauge set can be read, and then
      every one of them has been sampled; gauge sets are not sampled while
      a gauge fails. */
  ghost predicate SampledFrom(c0: map<Id, Collector>, c: map<Id, Collector>, m: Maps,
                              read: Callback -> Reading, readSet: Callback -> SetReading, o: Outcome) {
    && Untouched(c0, c, InnerSet(m, Gauges) + InnerSet(m, GaugeSets))
    && (o.Pass? <==> GaugesRead(m, read) && GaugeSetsRead(m, readSet))
    && (o.Pass? ==> forall n :: n in m.gauges ==> GaugeSampled(c0, c, m.gauges[n], read))
    && (o.Pass? ==> forall n :: n in m.gaugeSets ==> GaugeSetSampled(c0, c, m.gaugeSets[n], readSet))
    && (!GaugesRead(m, read) ==> Untouched(c0, c, InnerSet(m, Gauges)))
  }

  // ----- Rotation -----

  /** The order in which a tick walks the summary maps. */
  const TickOrder: seq<Family> := [Summaries, SummarySets, BasicSummaries, BasicSummarySets]

  predicate Distinct(s: seq<Id>) {
    forall i, j :: 0 <= i < j < |s| ==> s[i] != s[j]
  }

  /** `s` lists each identity of `ids` once. */
  ghost predicate Enumerates(s: seq<Id>, ids: set<Id>) {
    Distinct(s) && forall x :: x in s <==> x in ids
  }

  function Concat(parts: seq<seq<Id>>): (r: seq<Id>)
    ensures forall x :: x in r <==> exists k :: 0 <= k < |parts| && x in parts[k]
  {
    if parts == [] then [] else
      var r := Concat(parts[..|parts| - 1]) + parts[|parts| - 1];
      assert forall k :: 0 <= k < |parts| - 1 ==> parts[..|parts| - 1][k] == parts[k];
      r
  }

  /** `parts` walks the summary maps in tick order, each one's objects once. */
  ghost predicate TickOrdered(m: Maps, parts: seq<seq<Id>>) {
    |parts| == 4 && forall k :: 0 <= k < 4 ==> Enumerates(parts[k], InnerSet(m, TickOrder[k]))
  }

  /** The objects listed in `ids` have been rotated, and only they. */
  ghost predicate Rotated(c0: map<Id, Collector>, c: map<Id, Collector>, ids: seq<Id>) {
    c.Keys == c0.Keys && forall id :: id in c0 ==> c[id] == if id in ids then Rotate(c0[id]) else c0[id]
  }

  // ----- Dump -----

  predicate KeysBuildable(samples: seq<Sample>) {
    forall k :: 0 <= k < |samples| ==> |samples[k].labelNames| <= |samples[k].labelValues|
  }

  /** The pairs the sink receives for a collector's samples, in their order. */
  function SampleEntries(samples: seq<Sample>): (r: seq<(string, int)>)
    requires KeysBuildable(samples)
    ensures |r| == |samples|
  {
    if samples == [] then []
    else
      var last := samples[|samples| - 1];
      SampleEntries(samples[..|samples| - 1]) + [(DumpKey(last), last.value)]
  }

  /** The pairs the sink receives when the registry enumerates the
      collectors in `order`. */
  function DumpEntries(c: map<Id, Collector>, order: seq<Id>, est: Estimator): seq<(string, int)>
    requires forall i :: 0 <= i < |order| ==> order[i] in c && WellFormed(c[order[i]])
  {
    if order == [] then []
    else
      var id := order[|order| - 1];
      DumpEntries(c, order[..|order| - 1], est) + SampleEntries(Samples(c[id], est))
  }

  /** The collectors the registry holds. */
  function RegisteredIds(names: map<string, Id>): set<Id> {
    set n | n in names :: names[n]
  }

  lemma {:induction false} SampleEntriesContain(samples: seq<Sample>, k: nat)
    requires KeysBuildable(samples) && k < |samples|
    ensures (DumpKey(samples[k]), samples[k].value) in SampleEntries(samples)
    decreases |samples|
  {
    if k < |samples| - 1 {
      SampleEntriesContain(samples[..|samples| - 1], k);
    }
  }

  lemma {:induction false} DumpEntriesContain(c: map<Id, Collector>, order: seq<Id>, est: Estimator, k: nat, e: (string, int))
    requires forall i :: 0 <= i < |order| ==> order[i] in c && WellFormed(c[order[i]])
    requires k < |order| && e in SampleEntries(Samples(c[order[k]], est))
    ensures e in DumpEntries(c, order, est)
    decreases |order|
  {
    if k < |order| - 1 {
      DumpEntriesContain(c, order[..|order| - 1], est, k, e);
    }
  }

  /** The samples of the children from the `j`-th on include child `i`'s. */
  lemma {:induction false} SeriesSampledFrom(c: Collector, est: Estimator, i: nat, j: nat)
    requires WellFormed(c) && !c.kind.SummaryKind? && j <= i < |c.children|
    ensures Sample(c.name, c.labelNames, c.children[i].labelValues, c.children[i].value) in SamplesOf(c, c.children[j..], est)
    decreases i - j
  {
    assert c.children[j..][0] == c.children[j];
    assert c.children[j..][1..] == c.children[j + 1..];
    if j < i {
      SeriesSampledFrom(c, est, i, j + 1);
    }
  }

  /** A counter or gauge has one sample per series, named after it and
      carrying the series' labels and value. */
  lemma SeriesSampled(c: Collector, est: Estimator, i: nat)
    requires WellFormed(c) && !c.kind.SummaryKind? && i < |c.children|
    ensures Sample(c.name, c.labelNames, c.children[i].labelValues, c.children[i].value) in Samples(c, est)
  {
    SeriesSampledFrom(c, est, i, 0);
    assert c.children[0..] == c.children;
  }

  /** The dump shows an unlabelled counter or gauge under its bare name. */
  lemma {:induction false} UnlabelledInDump(c: map<Id, Collector>, order: seq<Id>, est: Estimator, k: nat)
    requires forall i :: 0 <= i < |order| ==> order[i] in c && WellFormed(c[order[i]])
    requires k < |order| && c[order[k]].labelNames == [] && !c[order[k]].kind.SummaryKind?
    ensures (c[order[k]].name, ValueOf(c[order[k]], [])) in DumpEntries(c, order, est)
  {
    var col := c[order[k]];
    assert col.children[0].labelValues == [];
    assert ChildIndex(col.children, []) == Some(0);
    SeriesSampled(col, est, 0);
    var s := Sample(col.name, [], [], col.children[0].value);
    var samples := Samples(col, est);
    var j :| 0 <= j < |samples| && samples[j] == s;
    SampleEntriesContain(samples, j);
    DumpEntriesContain(c, order, est, k, (col.name, col.children[0].value));
  }

  /** The dump shows each series of a counter or gauge labelled `key` as
      `name{key="value"}`. */
  lemma {:induction false} LabelledInDump(c: map<Id, Collector>, order: seq<Id>, est: Estimator, k: nat, key: string)
    requires forall i :: 0 <= i < |order| ==> order[i] in c && WellFormed(c[order[i]])
    requires k < |order| && c[order[k]].labelNames == LABELS && !c[order[k]].kind.SummaryKind?
    requires ChildIndex(c[order[k]].children, [key]).Some?
    ensures (c[order[k]].name + "{key=\"" + key + "\"}", ValueOf(c[order[k]], [key])) in DumpEntries(c, order, est)
  {
    var col := c[order[k]];
    var i := ChildIndex(col.children, [key]).value;
    SeriesSampled(col, est, i);
    var s := Sample(col.name, LABELS, [key], col.children[i].value);
    var samples := Samples(col, est);
    var j :| 0 <= j < |samples| && samples[j] == s;
    SampleEntriesContain(samples, j);
    DumpKeyOneLabel(col.name, LABEL, key, col.children[i].value);
    assert col.name + "{" + LABEL + "=\"" == col.name + "{key=\"";
    assert DumpKey(s) == col.name + "{key=\"" + key + "\"}";
    DumpEntriesContain(c, order, est, k, (DumpKey(s), s.value));
  }
}
