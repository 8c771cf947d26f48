/** The Prometheus CollectorRegistry the provider registers into, together
    with the backend collector objects the provider builds, as one mutable
    object shared by the provider's context and its metric wrappers. The
    provider uses the process-wide default registry; here it is an explicit
    object handed to the provider. */
module PrometheusRegistry {
  import opened Base
  import PC = PrometheusClient

  class CollectorRegistry {
    /** Backend collector objects by identity; an unregistered object stays here. */
    var collectors: map<PC.Id, PC.Collector>
    /** The registry proper: metric name to registered collector. */
    var names: map<string, PC.Id>
    /** The identity the next backend object gets. */
    var nextId: PC.Id

    ghost function State(): PC.RegistryState
      reads this
    {
      PC.RegistryState(collectors, names, nextId)
    }

    ghost predicate Valid()
      reads this
    {
      PC.Consistent(State())
    }

    constructor ()
      ensures Valid() && collectors == map[] && names == map[]
    {
      collectors, names, nextId := map[], map[], 0;
    }

    /** `register(collector)`: refused when the name is taken. */
    method Register(c: PC.Collector) returns (r: Result<PC.Id>)
      requires Valid() && PC.WellFormed(c)
      modifies this
      ensures Valid()
      ensures (State(), r) == PC.Register(old(State()), c)
    {
      if c.name in names {
        r := Err(IllegalArgument(""));
      } else {
        r := Ok(nextId);
        collectors := collectors[nextId := c];
        names := names[c.name := nextId];
        nextId := nextId + 1;
      }
    }

    /** `unregister(collector)`. */
    method Unregister(id: PC.Id)
      requires Valid()
      modifies this
      ensures Valid()
      ensures State() == PC.Unregister(old(State()), id)
    {
      names := map n | n in names && names[n] != id :: names[n];
    }

    /** `labels(keys).inc(amount)` on backend object `id`. */
    method Inc(id: PC.Id, keys: seq<Option<string>>, amount: int) returns (o: Outcome)
      requires Valid() && id in collectors
      modifies this
      ensures Valid() && names == old(names) && nextId == old(nextId)
      ensures id in collectors && (collectors[id], o) == PC.Inc(old(collectors[id]), keys, amount)
      ensures collectors == old(collectors)[id := collectors[id]]
    {
      var (c, out) := PC.Inc(collectors[id], keys, amount);
      collectors := collectors[id := c];
      o := out;
    }

    /** `labels(keys).set(v)` on backend object `id`. */
    method Set(id: PC.Id, keys: seq<Option<string>>, v: int) returns (o: Outcome)
      requires Valid() && id in collectors
      modifies this
      ensures Valid() && names == old(names) && nextId == old(nextId)
      ensures id in collectors && (collectors[id], o) == PC.Set(old(collectors[id]), keys, v)
      ensures collectors == old(collectors)[id := collectors[id]]
    {
      var (c, out) := PC.Set(collectors[id], keys, v);
      collectors := collectors[id := c];
      o := out;
    }

    /** `labels(keys).observe(v)` on backend object `id`. */
    method Observe(id: PC.Id, keys: seq<Option<string>>, v: int) returns (o: Outcome)
      requires Valid() && id in collectors
      modifies this
      ensures Valid() && names == old(names) && nextId == old(nextId)
      ensures id in collectors && (collectors[id], o) == PC.Observe(old(collectors[id]), keys, v)
      ensures collectors == old(collectors)[id := collectors[id]]
    {
      var (c, out) := PC.Observe(collectors[id], keys, v);
      collectors := collectors[id := c];
      o := out;
    }

    /** `rotate()` on backend sketch `id`. */
    method Rotate(id: PC.Id)
      requires Valid() && id in collectors
      modifies this
      ensures Valid() && names == old(names) && nextId == old(nextId)
      ensures collectors == old(collectors)[id := PC.Rotate(old(collectors[id]))]
    {
      collectors := collectors[id := PC.Rotate(collectors[id])];
    }
  }
}
