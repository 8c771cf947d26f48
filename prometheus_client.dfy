/** The part of the Prometheus Java client that the provider relies on, as
    values: backend collector objects (counters, gauges and sketch summaries,
    each holding one child series per combination of label values) and the
    state of a CollectorRegistry, which holds registered collectors by name.
    The client library itself is not part of this model; only what the
    provider observes of it is stated here. */
module PrometheusClient {
  import opened Base

  /** Identity of a backend collector object, in order of allocation. */
  type Id = nat

  /** The quantiles a summary can be configured with: 0.5, 0.9 and 0.99. */
  datatype Quantile = Median | P90 | P99

  /** The text of a quantile as it appears in a sample's `quantile` label. */
  function QuantileLabel(q: Quantile): string {
    match q
    case Median => "0.5"
    case P90 => "0.9"
    case P99 => "0.99"
  }

  datatype Kind = CounterKind | GaugeKind | SummaryKind(quantiles: seq<Quantile>)

  /** One series of a collector. Counters and gauges keep `value`; sketch
      summaries keep the `observations` fed to them (the sketch built from
      them is not modelled). */
  datatype Child = Child(labelValues: seq<string>, value: int, observations: seq<int>)

  /** A backend collector object. `rotations` counts the calls of `rotate()`
      on a sketch summary; what a rotation does to the sketch's time window is
      not modelled. */
  datatype Collector = Collector(
    name: string,
    kind: Kind,
    labelNames: seq<string>,
    children: seq<Child>,
    rotations: nat)

  /** Every child carries one value per label name, no two children carry the
      same label values, and a collector without labels has exactly its
      no-labels child. */
  ghost predicate WellFormed(c: Collector) {
    && (forall i :: 0 <= i < |c.children| ==> |c.children[i].labelValues| == |c.labelNames|)
    && (forall i, j :: 0 <= i < j < |c.children| ==> c.children[i].labelValues != c.children[j].labelValues)
    && (c.labelNames == [] ==> |c.children| == 1)
  }

  /** Two states of one backend object: what its builder fixed is the same. */
  predicate SameConfig(c: Collector, d: Collector) {
    c.name == d.name && c.kind == d.kind && c.labelNames == d.labelNames
  }

  /** `build(name, help)[.labelNames(...)][.quantile(...)]`: a fresh collector.
      A collector without labels starts with its no-labels child at zero. */
  function Build(name: string, kind: Kind, labelNames: seq<string>): (c: Collector)
    ensures WellFormed(c) && c.name == name && c.kind == kind && c.labelNames == labelNames
    ensures c.rotations == 0
    ensures forall i :: 0 <= i < |c.children| ==> c.children[i].value == 0 && c.children[i].observations == []
  {
    Collector(name, kind, labelNames, if labelNames == [] then [Child([], 0, [])] else [], 0)
  }

  /** The position of the child with the given label values, if there is one. */
  function ChildIndex(children: seq<Child>, labelValues: seq<string>): (r: Option<nat>)
    ensures r.Some? ==> r.value < |children| && children[r.value].labelValues == labelValues
    ensures r.None? ==> forall i :: 0 <= i < |children| ==> children[i].labelValues != labelValues
  {
    if |children| == 0 then None
    else if children[0].labelValues == labelValues then Some(0)
    else match ChildIndex(children[1..], labelValues)
      case Some(i) => Some(i + 1)
      case None => None
  }

  /** In a well-formed collector the child carrying some label values is the only one. */
  lemma ChildIndexUnique(c: Collector, k: nat)
    requires WellFormed(c) && k < |c.children|
    ensures ChildIndex(c.children, c.children[k].labelValues) == Some(k)
  {
  }

  predicate NoNulls(keys: seq<Option<string>>) {
    forall i :: 0 <= i < |keys| ==> keys[i].Some?
  }

  function Strings(keys: seq<Option<string>>): (r: seq<string>)
    requires NoNulls(keys)
    ensures |r| == |keys| && forall i :: 0 <= i < |keys| ==> r[i] == keys[i].value
  {
    seq(|keys|, i requires 0 <= i < |keys| => keys[i].value)
  }

  /** `labels(values...)`: refuses a wrong number of values or a null value
      (IllegalArgumentException); otherwise yields the child for those values,
      adding it with a zero value when it is not there yet. */
  function Labels(c: Collector, keys: seq<Option<string>>): (r: Result<(Collector, nat)>)
    requires WellFormed(c)
    ensures r.Ok? <==> |keys| == |c.labelNames| && NoNulls(keys)
    ensures r.Err? ==> r.error.IllegalArgument?
    ensures r.Ok? ==>
      var (d, i) := r.value;
      && WellFormed(d) && SameConfig(c, d) && d.rotations == c.rotations
      && i <= |c.children| && i < |d.children| && d.children[i].labelValues == Strings(keys)
      && (i < |c.children| ==> d.children == c.children)
      && (i == |c.children| ==> d.children == c.children + [Child(Strings(keys), 0, [])])
  {
    if |keys| != |c.labelNames| || !NoNulls(keys) then Err(IllegalArgument(""))
    else
      var lv := Strings(keys);
      match ChildIndex(c.children, lv)
      case Some(i) => Ok((c, i))
      case None =>
        var d := c.(children := c.children + [Child(lv, 0, [])]);
        Ok((d, |c.children|))
  }

  /** `labels(keys).inc(amount)`: a negative amount is refused
      (IllegalArgumentException) after the child has been looked up, so a
      child the call created stays, at zero. */
  function Inc(c: Collector, keys: seq<Option<string>>, amount: int): (r: (Collector, Outcome))
    requires WellFormed(c)
    ensures WellFormed(r.0) && SameConfig(c, r.0) && r.0.rotations == c.rotations
  {
    match Labels(c, keys)
    case Err(e) => (c, Fail(e))
    case Ok((d, i)) =>
      if amount < 0 then (d, Fail(IllegalArgument("")))
      else (d.(children := d.children[i := d.children[i].(value := d.children[i].value + amount)]), Pass)
  }

  /** `labels(keys).set(v)`. */
  function Set(c: Collector, keys: seq<Option<string>>, v: int): (r: (Collector, Outcome))
    requires WellFormed(c)
    ensures WellFormed(r.0) && SameConfig(c, r.0) && r.0.rotations == c.rotations
  {
    match Labels(c, keys)
    case Err(e) => (c, Fail(e))
    case Ok((d, i)) => (d.(children := d.children[i := d.children[i].(value := v)]), Pass)
  }

  /** `labels(keys).observe(v)`: the observation is fed to the child's sketch. */
  function Observe(c: Collector, keys: seq<Option<string>>, v: int): (r: (Collector, Outcome))
    requires WellFormed(c)
    ensures WellFormed(r.0) && SameConfig(c, r.0) && r.0.rotations == c.rotations
  {
    match Labels(c, keys)
    case Err(e) => (c, Fail(e))
    case Ok((d, i)) =>
      (d.(children := d.children[i := d.children[i].(observations := d.children[i].observations + [v])]), Pass)
  }

  /** `rotate()` on a sketch summary. */
  function Rotate(c: Collector): (r: Collector)
    ensures SameConfig(c, r) && r.children == c.children && r.rotations == c.rotations + 1
  {
    c.(rotations := c.rotations + 1)
  }

  /** The value of the series with the given label values; a series that
      does not exist yet reads as zero, the value it is created with. */
  function ValueOf(c: Collector, lv: seq<string>): int {
    match ChildIndex(c.children, lv)
    case Some(i) => c.children[i].value
    case None => 0
  }

  /** The observations fed to the series with the given label values. */
  function ObservationsOf(c: Collector, lv: seq<string>): seq<int> {
    match ChildIndex(c.children, lv)
    case Some(i) => c.children[i].observations
    case None => []
  }

  /** Replacing one child by one with the same label values keeps the
      collector well formed and leaves every lookup where it was. */
  lemma ChildIndexAfterUpdate(c: Collector, i: nat, ch: Child)
    requires WellFormed(c) && i < |c.children| && ch.labelValues == c.children[i].labelValues
    ensures WellFormed(c.(children := c.children[i := ch]))
    ensures forall lv :: ChildIndex(c.children[i := ch], lv) == ChildIndex(c.children, lv)
  {
    var d := c.(children := c.children[i := ch]);
    forall lv ensures ChildIndex(d.children, lv) == ChildIndex(c.children, lv) {
      match ChildIndex(c.children, lv)
      case Some(k) => ChildIndexUnique(d, k);
      case None =>
    }
  }

  /** Updating child `i` (to `d`) changes the reading of its own series only. */
  lemma {:induction false} ReadAfterUpdate(c: Collector, i: nat, ch: Child, d: Collector)
    requires WellFormed(c) && i < |c.children| && ch.labelValues == c.children[i].labelValues
    requires d == c.(children := c.children[i := ch])
    ensures WellFormed(d)
    ensures forall lv :: ValueOf(d, lv) == (if lv == ch.labelValues then ch.value else ValueOf(c, lv))
    ensures forall lv :: ObservationsOf(d, lv) == (if lv == ch.labelValues then ch.observations else ObservationsOf(c, lv))
  {
    ChildIndexAfterUpdate(c, i, ch);
    ChildIndexUnique(c, i);
    forall lv ensures ValueOf(d, lv) == (if lv == ch.labelValues then ch.value else ValueOf(c, lv))
      && ObservationsOf(d, lv) == (if lv == ch.labelValues then ch.observations else ObservationsOf(c, lv))
    {
      assert ChildIndex(d.children, lv) == ChildIndex(c.children, lv);
    }
  }

  /** Looking up (and perhaps creating) a child changes no reading: a new
      child reads as an absent one does. */
  lemma {:induction false} ReadAfterLabels(c: Collector, keys: seq<Option<string>>)
    requires WellFormed(c) && Labels(c, keys).Ok?
    ensures forall lv :: ValueOf(Labels(c, keys).value.0, lv) == ValueOf(c, lv)
    ensures forall lv :: ObservationsOf(Labels(c, keys).value.0, lv) == ObservationsOf(c, lv)
  {
    var (d, i) := Labels(c, keys).value;
    if i == |c.children| {
      forall lv ensures ChildIndex(d.children, lv) == if lv == Strings(keys) then Some(i) else ChildIndex(c.children, lv) {
        if lv == Strings(keys) {
          ChildIndexUnique(d, i);
        } else {
          match ChildIndex(c.children, lv)
          case Some(k) => ChildIndexUnique(d, k);
          case None =>
        }
      }
    }
  }

  /** `inc` adds a non-negative amount to its own series and to nothing
      else; a refused call (wrong labels, null label, negative amount)
      changes no reading. */
  lemma {:induction false} IncSemantics(c: Collector, keys: seq<Option<string>>, amount: int)
    requires WellFormed(c)
    ensures var (d, o) := Inc(c, keys, amount);
      && (o.Pass? <==> |keys| == |c.labelNames| && NoNulls(keys) && amount >= 0)
      && (o.Fail? ==> o.error.IllegalArgument? && forall lv :: ValueOf(d, lv) == ValueOf(c, lv))
      && (o.Pass? ==> forall lv :: ValueOf(d, lv) == if lv == Strings(keys) then ValueOf(c, lv) + amount else ValueOf(c, lv))
  {
    if Labels(c, keys).Ok? {
      var (d, i) := Labels(c, keys).value;
      ReadAfterLabels(c, keys);
      var ch := d.children[i].(value := d.children[i].value + amount);
      ReadAfterUpdate(d, i, ch, d.(children := d.children[i := ch]));
    }
  }

  /** `set` replaces the value of its own series and of nothing else. */
  lemma {:induction false} SetSemantics(c: Collector, keys: seq<Option<string>>, v: int)
    requires WellFormed(c)
    ensures var (d, o) := Set(c, keys, v);
      && (o.Pass? <==> |keys| == |c.labelNames| && NoNulls(keys))
      && (o.Fail? ==> o.error.IllegalArgument? && d == c)
      && (o.Pass? ==> forall lv :: ValueOf(d, lv) == if lv == Strings(keys) then v else ValueOf(c, lv))
  {
    if Labels(c, keys).Ok? {
      var (d, i) := Labels(c, keys).value;
      ReadAfterLabels(c, keys);
      var ch := d.children[i].(value := v);
      ReadAfterUpdate(d, i, ch, d.(children := d.children[i := ch]));
    }
  }

  /** `observe` appends the observation to its own series' sketch input and
      leaves every other series as it was. */
  lemma {:induction false} ObserveSemantics(c: Collector, keys: seq<Option<string>>, v: int)
    requires WellFormed(c)
    ensures var (d, o) := Observe(c, keys, v);
      && (o.Pass? <==> |keys| == |c.labelNames| && NoNulls(keys))
      && (o.Fail? ==> o.error.IllegalArgument? && d == c)
      && (o.Pass? ==> forall lv :: ObservationsOf(d, lv)
                                   == (if lv == Strings(keys) then ObservationsOf(c, lv) + [v] else ObservationsOf(c, lv)))
  {
    if Labels(c, keys).Ok? {
      var (d, i) := Labels(c, keys).value;
      ReadAfterLabels(c, keys);
      var ch := d.children[i].(observations := d.children[i].observations + [v]);
      ReadAfterUpdate(d, i, ch, d.(children := d.children[i := ch]));
    }
  }

  // ----- Serialisation -----

  /** One sample of a metric family, as the registry enumerates it. */
  datatype Sample = Sample(name: string, labelNames: seq<string>, labelValues: seq<string>, value: int)

  /** The sketch's estimate of a quantile, from a series' observations and
      the number of rotations so far. It is outside the model. */
  type Estimator = (seq<int>, nat, Quantile) -> int

  /** The samples of one series: its value for a counter or a gauge, one
      sample per configured quantile, labelled `quantile`, for a summary. */
  function ChildSamples(c: Collector, ch: Child, est: Estimator): (r: seq<Sample>)
    requires |ch.labelValues| == |c.labelNames|
    ensures forall k :: 0 <= k < |r| ==> r[k].name == c.name && |r[k].labelValues| == |r[k].labelNames|
  {
    match c.kind
    case SummaryKind(qs) => QuantileSamples(c, ch, qs, est)
    case _ => [Sample(c.name, c.labelNames, ch.labelValues, ch.value)]
  }

  function QuantileSamples(c: Collector, ch: Child, qs: seq<Quantile>, est: Estimator): (r: seq<Sample>)
    requires |ch.labelValues| == |c.labelNames|
    ensures |r| == |qs|
    ensures forall k :: 0 <= k < |r| ==> r[k].name == c.name && |r[k].labelValues| == |r[k].labelNames|
  {
    if qs == [] then []
    else
      [Sample(c.name, c.labelNames + ["quantile"], ch.labelValues + [QuantileLabel(qs[0])],
              est(ch.observations, c.rotations, qs[0]))]
      + QuantileSamples(c, ch, qs[1..], est)
  }

  /** All samples of a collector, series by series. */
  function Samples(c: Collector, est: Estimator): (r: seq<Sample>)
    requires WellFormed(c)
    ensures forall k :: 0 <= k < |r| ==> r[k].name == c.name && |r[k].labelValues| == |r[k].labelNames|
  {
    SamplesOf(c, c.children, est)
  }

  function SamplesOf(c: Collector, children: seq<Child>, est: Estimator): (r: seq<Sample>)
    requires forall i :: 0 <= i < |children| ==> |children[i].labelValues| == |c.labelNames|
    ensures forall k :: 0 <= k < |r| ==> r[k].name == c.name && |r[k].labelValues| == |r[k].labelNames|
  {
    if children == [] then [] else ChildSamples(c, children[0], est) + SamplesOf(c, children[1..], est)
  }

  // ----- The CollectorRegistry -----

  /** The backend objects allocated so far, by identity, the registry's table
      from metric name to registered collector, and the next identity. */
  datatype RegistryState = RegistryState(collectors: map<Id, Collector>, names: map<string, Id>, nextId: Id)

  /** Identities are below `nextId`, every object is well formed, and every
      name is registered to an existing collector of that name, so that no
      collector is registered under two names. */
  ghost predicate Consistent(s: RegistryState) {
    && (forall id :: id in s.collectors ==> id < s.nextId && WellFormed(s.collectors[id]))
    && (forall n :: n in s.names ==> s.names[n] in s.collectors && s.collectors[s.names[n]].name == n)
  }

  /** `register(collector)`: refused with IllegalArgumentException when a
      collector is already registered under the name; otherwise the object
      gets a fresh identity and the name is registered to it. */
  function Register(s: RegistryState, c: Collector): (r: (RegistryState, Result<Id>))
    ensures r.1.Ok? <==> c.name !in s.names
    ensures r.1.Err? ==> r.0 == s && r.1.error.IllegalArgument?
    ensures r.1.Ok? ==> r.1.value !in s.collectors || !Consistent(s)
    ensures r.1.Ok? ==> r.0.collectors == s.collectors[r.1.value := c] && r.0.names == s.names[c.name := r.1.value]
    ensures Consistent(s) && WellFormed(c) ==> Consistent(r.0)
  {
    if c.name in s.names then (s, Err(IllegalArgument("")))
    else (RegistryState(s.collectors[s.nextId := c], s.names[c.name := s.nextId], s.nextId + 1), Ok(s.nextId))
  }

  /** `unregister(collector)`: every name registered to the object is
      removed; the object itself is untouched. The client does not make
      this a no-op for an object that is not registered, but the provider
      never unregisters one (under `Metrics.Inv` every wrapper's object is
      registered), so that case is written here as leaving the registry as
      it is. */
  function Unregister(s: RegistryState, id: Id): (r: RegistryState)
    ensures r.collectors == s.collectors && r.nextId == s.nextId
    ensures forall n :: n in r.names <==> n in s.names && s.names[n] != id
    ensures forall n :: n in r.names ==> r.names[n] == s.names[n]
    ensures Consistent(s) ==> Consistent(r)
    ensures (forall n :: n in s.names ==> s.names[n] != id) ==> r == s
  {
    s.(names := map n | n in s.names && s.names[n] != id :: s.names[n])
  }
}
