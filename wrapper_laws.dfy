/** What sampling a gauge or a gauge set, and adding to a counter, do to
    the readings of the backend object. */
module WrapperLaws {
  import opened Base
  import opened PrometheusClient
  import opened Metrics

  /** Sampling a gauge succeeds exactly when there is a callback and it
      returns; the backend value is then what it returned, zero for null,
      and a failed sample leaves the backend gauge as it was. */
  lemma {:induction false} SampleGaugeLaw(c: Collector, gauge: Option<Callback>, read: Callback -> Reading)
    requires WellFormed(c) && c.labelNames == []
    ensures var (d, o) := SampleGauge(c, gauge, read);
      && (o.Pass? <==> gauge.Some? && read(gauge.value).Returned?)
      && (gauge.None? ==> o == Fail(NullPointer("")))
      && (gauge.Some? && read(gauge.value).Threw? ==> o == Fail(CallbackException))
      && (o.Fail? ==> d == c)
      && (o.Pass? ==> ValueOf(d, []) == read(gauge.value).value.GetOr(0))
      && (forall lv :: lv != [] ==> ValueOf(d, lv) == ValueOf(c, lv))
  {
    if gauge.Some? && read(gauge.value).Returned? {
      SetSemantics(c, [], read(gauge.value).value.GetOr(0));
      assert Strings([]) == [];
    }
  }

  predicate NoNullKeys(entries: seq<(Option<string>, Option<int>)>) {
    forall i :: 0 <= i < |entries| ==> entries[i].0.Some?
  }

  /** The value the last entry for `key` carries, zero for null; none when
      no entry is for `key`. */
  function LastValue(entries: seq<(Option<string>, Option<int>)>, key: string): Option<int>
    decreases |entries|
  {
    if entries == [] then None
    else match LastValue(entries[1..], key)
      case Some(v) => Some(v)
      case None => if entries[0].0 == Some(key) then Some(entries[0].1.GetOr(0)) else None
  }

  /** The series of a key the entries name reads as the key's last value. */
  function AfterEntries(c: Collector, entries: seq<(Option<string>, Option<int>)>, lv: seq<string>): int {
    if |lv| == 1 && LastValue(entries, lv[0]).Some? then LastValue(entries, lv[0]).value else ValueOf(c, lv)
  }

  lemma NoNullKeysCons(entries: seq<(Option<string>, Option<int>)>)
    requires entries != []
    ensures NoNullKeys(entries) <==> entries[0].0.Some? && NoNullKeys(entries[1..])
  {
    if entries[0].0.Some? && NoNullKeys(entries[1..]) {
      forall i | 0 < i < |entries| ensures entries[i].0.Some? {
        assert entries[1..][i - 1] == entries[i];
      }
    }
  }

  /** Once the first entry is set, the rest leave every series as the
      whole map would. */
  lemma AfterFirstEntry(c: Collector, d: Collector, entries: seq<(Option<string>, Option<int>)>, lv: seq<string>)
    requires entries != [] && entries[0].0.Some?
    requires forall lv' :: ValueOf(d, lv') == if lv' == [entries[0].0.value] then entries[0].1.GetOr(0) else ValueOf(c, lv')
    ensures AfterEntries(d, entries[1..], lv) == AfterEntries(c, entries, lv)
  {
  }

  /** Setting the entries of a gauge set's map succeeds exactly when no key
      is null; then each key's series holds the key's value, null counting
      as zero, and every other series is as it was. */
  lemma {:induction false} SetEntriesLaw(c: Collector, entries: seq<(Option<string>, Option<int>)>)
    requires WellFormed(c) && c.labelNames == LABELS
    ensures var (d, o) := SetEntries(c, entries);
      && (o.Pass? <==> NoNullKeys(entries))
      && (o.Fail? ==> o.error.IllegalArgument?)
      && (o.Pass? ==> forall lv :: ValueOf(d, lv) == AfterEntries(c, entries, lv))
    decreases |entries|
  {
    if entries != [] {
      var (key, value) := entries[0];
      SetSemantics(c, [key], value.GetOr(0));
      NoNullKeysCons(entries);
      var (d, o) := Set(c, [key], value.GetOr(0));
      if o.Pass? {
        assert [key][0] == key && key.Some?;
        assert Strings([key]) == [key.value];
        SetEntriesLaw(d, entries[1..]);
        var (e, o2) := SetEntries(d, entries[1..]);
        if o2.Pass? {
          forall lv ensures ValueOf(e, lv) == AfterEntries(c, entries, lv) {
            AfterFirstEntry(c, d, entries, lv);
          }
        }
      }
    }
  }

  /** `set` keeps every series there is and, when it succeeds, its own. */
  lemma SetKeepsSeries(c: Collector, keys: seq<Option<string>>, v: int)
    requires WellFormed(c)
    ensures var (d, o) := Set(c, keys, v);
      && (forall lv :: ChildIndex(c.children, lv).Some? ==> ChildIndex(d.children, lv).Some?)
      && (o.Pass? ==> ChildIndex(d.children, Strings(keys)).Some?)
  {
    var (d, o) := Set(c, keys, v);
    forall lv | ChildIndex(c.children, lv).Some? ensures ChildIndex(d.children, lv).Some? {
      var j := ChildIndex(c.children, lv).value;
      assert d.children[j].labelValues == lv;
    }
    if o.Pass? {
      var i := Labels(c, keys).value.1;
      assert d.children[i].labelValues == Strings(keys);
    }
  }

  /** After a successful pass every key of the map has its series. */
  lemma {:induction false} SetEntriesCreatesSeries(c: Collector, entries: seq<(Option<string>, Option<int>)>)
    requires WellFormed(c) && c.labelNames == LABELS
    ensures var (d, o) := SetEntries(c, entries);
      o.Pass? ==> NoNullKeys(entries) && forall i :: 0 <= i < |entries| ==> ChildIndex(d.children, [entries[i].0.value]).Some?
    decreases |entries|
  {
    if entries != [] {
      var (key, value) := entries[0];
      var (d, o) := Set(c, [key], value.GetOr(0));
      SetKeepsSeries(c, [key], value.GetOr(0));
      SetEntriesLaw(c, entries);
      if o.Pass? {
        SetEntriesCreatesSeries(d, entries[1..]);
        var (e, o2) := SetEntries(d, entries[1..]);
        if o2.Pass? {
          forall i | 0 <= i < |entries| ensures ChildIndex(e.children, [entries[i].0.value]).Some? {
            if i == 0 {
              assert Strings([key]) == [entries[0].0.value];
              SetEntriesKeepsSeries(d, entries[1..], [entries[0].0.value]);
            } else {
              assert entries[1..][i - 1] == entries[i];
            }
          }
        }
      }
    }
  }

  /** A pass keeps every series there is. */
  lemma {:induction false} SetEntriesKeepsSeries(c: Collector, entries: seq<(Option<string>, Option<int>)>, lv: seq<string>)
    requires WellFormed(c) && ChildIndex(c.children, lv).Some?
    ensures ChildIndex(SetEntries(c, entries).0.children, lv).Some?
    decreases |entries|
  {
    if entries != [] {
      var (d, o) := Set(c, [entries[0].0], entries[0].1.GetOr(0));
      SetKeepsSeries(c, [entries[0].0], entries[0].1.GetOr(0));
      if o.Pass? {
        SetEntriesKeepsSeries(d, entries[1..], lv);
      }
    }
  }

  /** Sampling a gauge set succeeds exactly when its callback returns a map
      without a null key, and then sets the series of each key. */
  lemma {:induction false} SampleGaugeSetLaw(c: Collector, gaugeSet: Callback, readSet: Callback -> SetReading)
    requires WellFormed(c) && c.labelNames == LABELS
    ensures var (d, o) := SampleGaugeSet(c, gaugeSet, readSet);
      && (o.Pass? <==> readSet(gaugeSet).ReturnedMap? && NoNullKeys(readSet(gaugeSet).entries))
      && (readSet(gaugeSet).ThrewMap? ==> d == c && o == Fail(CallbackException))
      && (readSet(gaugeSet).ReturnedNull? ==> d == c && o == Fail(NullPointer("")))
      && (o.Pass? ==> forall lv :: ValueOf(d, lv) == AfterEntries(c, readSet(gaugeSet).entries, lv))
  {
    if readSet(gaugeSet).ReturnedMap? {
      SetEntriesLaw(c, readSet(gaugeSet).entries);
    }
  }

  // ----- Counters -----

  /** The counter after `add` of each delta in turn. */
  function AddAll(c: Collector, keys: seq<Option<string>>, deltas: seq<int>): (r: Collector)
    requires WellFormed(c)
    ensures WellFormed(r) && SameConfig(c, r)
    decreases |deltas|
  {
    if deltas == [] then c else AddAll(Inc(c, keys, deltas[0]).0, keys, deltas[1..])
  }

  /** The sum of the non-negative deltas: the ones a counter accepts. */
  function Accepted(deltas: seq<int>): int
    decreases |deltas|
  {
    if deltas == [] then 0 else (if deltas[0] >= 0 then deltas[0] else 0) + Accepted(deltas[1..])
  }

  /** A counter's series grows by exactly the non-negative deltas added to
      it; refused adds (negative delta, wrong or null key) change nothing,
      and the other series do not move. */
  lemma {:induction false} AddAllLaw(c: Collector, keys: seq<Option<string>>, deltas: seq<int>)
    requires WellFormed(c)
    ensures forall lv :: (ValueOf(AddAll(c, keys, deltas), lv)
                          == ValueOf(c, lv) + (if |keys| == |c.labelNames| && NoNulls(keys) && lv == Strings(keys) then Accepted(deltas) else 0))
    decreases |deltas|
  {
    if deltas != [] {
      IncSemantics(c, keys, deltas[0]);
      AddAllLaw(Inc(c, keys, deltas[0]).0, keys, deltas[1..]);
    }
  }

  /** A fresh counter after `add(5)`, `add(3)` and `add(-1)` reads 8. */
  lemma CounterScenario(name: string)
    ensures ValueOf(AddAll(Build(name, CounterKind, []), [], [5, 3, -1]), []) == 8
  {
    var c := Build(name, CounterKind, []);
    AddAllLaw(c, [], [5, 3, -1]);
    assert Strings([]) == [];
    assert ChildIndex(c.children, []) == Some(0);
  }
}
