/** The key under which `dump` hands one sample to its sink:
    `name` for a sample without labels, `name{l1="v1",l2="v2"}` otherwise,
    label pairs in label order. Label values are not escaped. */
module DumpKeys {
  import opened PrometheusClient

  /** `label="value"`. */
  function Pair(labelName: string, value: string): string {
    labelName + "=\"" + value + "\""
  }

  /** The first `k` labelName pairs, separated by commas. */
  function Pairs(names: seq<string>, values: seq<string>, k: nat): string
    requires k <= |names| && k <= |values|
  {
    if k == 0 then ""
    else if k == 1 then Pair(names[0], values[0])
    else Pairs(names, values, k - 1) + "," + Pair(names[k - 1], values[k - 1])
  }

  /** The dump key of a sample, as a specification. Only the first
      `|labelNames|` label values are read. */
  function DumpKey(s: Sample): string
    requires |s.labelNames| <= |s.labelValues|
  {
    if |s.labelNames| == 0 then s.name
    else s.name + "{" + Pairs(s.labelNames, s.labelValues, |s.labelNames|) + "}"
  }

  /** `buildKeyForDump`: appends to a string builder, label by label. */
  method BuildKeyForDump(sample: Sample) returns (key: string)
    requires |sample.labelNames| <= |sample.labelValues|
    ensures key == DumpKey(sample)
  {
    key := sample.name;
    if |sample.labelNames| > 0 {
      key := key + "{";
      var i := 0;
      while i < |sample.labelNames|
        invariant 0 <= i <= |sample.labelNames|
        invariant key == sample.name + "{" + Pairs(sample.labelNames, sample.labelValues, i)
      {
        if i > 0 {
          key := key + ",";
        }
        key := key + sample.labelNames[i];
        key := key + "=\"";
        key := key + sample.labelValues[i];
        key := key + "\"";
        i := i + 1;
      }
      key := key + "}";
    }
  }

  /** The key is the bare metric name exactly when the sample has no labels. */
  lemma DumpKeyIsBareNameIffUnlabelled(s: Sample)
    requires |s.labelNames| <= |s.labelValues|
    ensures DumpKey(s) == s.name <==> |s.labelNames| == 0
  {
    if |s.labelNames| > 0 {
      assert |DumpKey(s)| >= |s.name| + 2;
    }
  }

  /** The key of a series of a metric with the single label `labelName`. */
  lemma {:induction false} DumpKeyOneLabel(name: string, labelName: string, value: string, x: int)
    ensures DumpKey(Sample(name, [labelName], [value], x)) == name + "{" + labelName + "=\"" + value + "\"}"
  {
    var s := Sample(name, [labelName], [value], x);
    assert Pairs(s.labelNames, s.labelValues, 1) == Pair(labelName, value);
    calc {
      DumpKey(s);
      name + "{" + Pair(labelName, value) + "}";
      name + "{" + (labelName + "=\"" + value + "\"") + "}";
      { assert ("\"" + "}") == "\"}"; }
      name + "{" + labelName + "=\"" + value + "\"}";
    }
  }

  /** Two series of one metric with a single label get different keys: the
      label value can be read back from the key. */
  lemma {:induction false} DumpKeySeparatesSeries(name: string, labelName: string, v: string, w: string, x: int, y: int)
    requires v != w
    ensures DumpKey(Sample(name, [labelName], [v], x)) != DumpKey(Sample(name, [labelName], [w], y))
  {
    DumpKeyOneLabel(name, labelName, v, x);
    DumpKeyOneLabel(name, labelName, w, y);
    var prefix := name + "{" + labelName + "=\"";
    var kv := prefix + v + "\"}";
    var kw := prefix + w + "\"}";
    assert DumpKey(Sample(name, [labelName], [v], x)) == kv;
    assert DumpKey(Sample(name, [labelName], [w], y)) == kw;
    assert kv[|prefix|..|prefix| + |v|] == v;
  }
}
