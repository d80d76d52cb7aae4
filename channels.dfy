/**
 * The insertion-ordered name -> series maps of a metric ledger (the
 * OrderedDicts of sub-costs and scores in basemetrics.py), and the two
 * bulk operations on them: recording a run of labelled values
 * (BaseMetrics.add_data) and merging another ledger's map in
 * (the key loop of BaseMetrics.append_metric).
 */
module Channels {
  import opened Plots

  /** An OrderedDict from channel label to its list of plots. */
  datatype Channels = Channels(order: seq<string>, series: map<string, seq<PlotData>>)
  {
    /** The order lists every key exactly once. */
    ghost predicate Valid()
    {
      ListsExactly(order, |order|, series.Keys)
    }

    /** The plots under a key; an absent key reads as the empty list. */
    function Get(k: string): seq<PlotData>
    {
      if k in series then series[k] else []
    }

    /** Assign a key: an existing key keeps its place, a new key goes last. */
    function Put(k: string, v: seq<PlotData>): Channels
    {
      Channels(if k in series then order else order + [k], series[k := v])
    }

    /** Every plot under every key is aligned. */
    predicate AllAlignedIn()
    {
      forall k :: k in series ==> AllAligned(series[k])
    }
  }

  /** The first n entries of `order` are distinct and are exactly `keys`. */
  ghost predicate ListsExactly(order: seq<string>, n: nat, keys: set<string>)
    requires n <= |order|
    decreases n
  {
    if n == 0 then |keys| == 0
    else order[n - 1] in keys && ListsExactly(order, n - 1, keys - {order[n - 1]})
  }

  /** Entries past the first n do not matter. */
  lemma {:induction false} ListsExactlySnoc(order: seq<string>, x: string, n: nat, keys: set<string>)
    requires n <= |order|
    ensures ListsExactly(order + [x], n, keys) == ListsExactly(order, n, keys)
    decreases n
  {
    if n > 0 {
      assert (order + [x])[n - 1] == order[n - 1];
      ListsExactlySnoc(order, x, n - 1, keys - {order[n - 1]});
    }
  }

  /** A key is listed exactly when it is among the first n entries. */
  lemma {:induction false} ListsExactlyKeys(order: seq<string>, n: nat, keys: set<string>, k: string)
    requires n <= |order|
    requires ListsExactly(order, n, keys)
    ensures k in keys <==> Among(order, n, k)
    decreases n
  {
    if n > 0 {
      ListsExactlyKeys(order, n - 1, keys - {order[n - 1]}, k);
    }
  }

  /** No entry among the first n repeats an earlier one. */
  ghost predicate Distinct(order: seq<string>, n: nat)
    requires n <= |order|
    decreases n
  {
    n == 0 || (!Among(order, n - 1, order[n - 1]) && Distinct(order, n - 1))
  }

  /** Listed entries are distinct. */
  lemma {:induction false} ListsExactlyDistinct(order: seq<string>, n: nat, keys: set<string>)
    requires n <= |order|
    requires ListsExactly(order, n, keys)
    ensures Distinct(order, n)
    decreases n
  {
    if n > 0 {
      var x := order[n - 1];
      ListsExactlyKeys(order, n - 1, keys - {x}, x);
      ListsExactlyDistinct(order, n - 1, keys - {x});
    }
  }

  const NoChannels: Channels := Channels([], map[])

  /** Put keeps an ordered map well formed. */
  lemma PutValid(ch: Channels, k: string, v: seq<PlotData>)
    requires ch.Valid()
    ensures ch.Put(k, v).Valid()
  {
    var n := |ch.order|;
    if k in ch.series {
      assert ch.series[k := v].Keys == ch.series.Keys;
    } else {
      var keys := ch.series.Keys;
      assert ch.series[k := v].Keys == keys + {k};
      assert (keys + {k}) - {k} == keys;
      assert (ch.order + [k])[n] == k;
      ListsExactlySnoc(ch.order, k, n, keys);
    }
  }

  /** In a well-formed map, the keys are exactly those among its whole order. */
  lemma ValidKeys(ch: Channels, k: string)
    requires ch.Valid()
    ensures k in ch.series <==> Among(ch.order, |ch.order|, k)
  {
    ListsExactlyKeys(ch.order, |ch.order|, ch.series.Keys, k);
  }

  /** Record one labelled value: add_point on the list under `label`, created if absent. */
  function Record(ch: Channels, key: string, x: real, y: real, name: string): Channels
  {
    ch.Put(key, AddPointTo(ch.Get(key), x, y, key, name))
  }

  /**
   * Record the values data[lo..hi) under labels[lo..hi), all at x = epoch,
   * in order. Each value consumed adds at most one key to the order.
   */
  function RecordRange(ch: Channels, labels: seq<string>, data: seq<real>, name: string, epoch: real, lo: nat, hi: nat): (r: Channels)
    requires lo <= hi <= |labels| && hi <= |data|
    ensures |ch.order| <= |r.order| <= |ch.order| + (hi - lo)
    decreases hi
  {
    if hi == lo then ch
    else Record(RecordRange(ch, labels, data, name, epoch, lo, hi - 1), labels[hi - 1], epoch, data[hi - 1], name)
  }

  /** Record the n values that follow position index (add_data's window). */
  function RecordAfter(ch: Channels, labels: seq<string>, data: seq<real>, name: string, epoch: real, index: nat, n: nat): (r: Channels)
    requires index + n < |labels| && index + n < |data|
    ensures |ch.order| <= |r.order| <= |ch.order| + n
  {
    RecordRange(ch, labels, data, name, epoch, index + 1, index + 1 + n)
  }

  /** The values among data[lo..hi) whose label is k, in order. */
  function Hits(labels: seq<string>, data: seq<real>, lo: nat, hi: nat, k: string): seq<real>
    requires lo <= hi <= |labels| && hi <= |data|
    decreases hi
  {
    if hi == lo then []
    else if labels[hi - 1] == k then Hits(labels, data, lo, hi - 1, k) + [data[hi - 1]]
    else Hits(labels, data, lo, hi - 1, k)
  }

  function Repeat(x: real, n: nat): (r: seq<real>)
    ensures |r| == n && forall i :: 0 <= i < n ==> r[i] == x
  {
    seq(n, _ => x)
  }

  lemma RepeatSnoc(x: real, n: nat)
    ensures Repeat(x, n) + [x] == Repeat(x, n + 1)
  {
  }

  /** One more hit extends the first plot by one more (epoch, value) point. */
  lemma ExtendedRepeatStep(plots: seq<PlotData>, hp: seq<real>, epoch: real, y: real, k: string, name: string)
    ensures AddPointTo(Extended(plots, Repeat(epoch, |hp|), hp, k, name), epoch, y, k, name)
         == Extended(plots, Repeat(epoch, |hp + [y]|), hp + [y], k, name)
  {
    RepeatSnoc(epoch, |hp|);
    ExtendedThenAddPoint(plots, Repeat(epoch, |hp|), hp, epoch, y, k, name);
  }

  /** Recording under `key` changes only the list under `key`. */
  lemma RecordGet(ch: Channels, key: string, x: real, y: real, name: string, k: string)
    ensures Record(ch, key, x, y, name).Get(k) ==
            if key == k then AddPointTo(ch.Get(k), x, y, k, name) else ch.Get(k)
  {
  }

  /** The window after position index, read under one label: RecordRangeGet for add_data's arguments. */
  lemma RecordAfterGet(ch: Channels, labels: seq<string>, data: seq<real>, name: string, epoch: real, index: nat, n: nat, k: string,
                        lo: nat, hi: nat)
    requires index + n < |labels| && index + n < |data|
    requires lo == index + 1 && hi == lo + n
    ensures hi <= |labels| && hi <= |data|
    ensures var h := Hits(labels, data, lo, hi, k);
            RecordAfter(ch, labels, data, name, epoch, index, n).Get(k) == Extended(ch.Get(k), Repeat(epoch, |h|), h, k, name)
  {
    RecordRangeGet(ch, labels, data, name, epoch, lo, hi, k);
  }

  /**
   * add_data consumes exactly data[lo..hi) and keys each value by the label
   * at the same position: the list under k gains, on its first plot (created
   * only when k had none), the values labelled k at x = epoch, in order;
   * every other plot is unchanged.
   */
  lemma {:induction false} RecordRangeGet(ch: Channels, labels: seq<string>, data: seq<real>, name: string, epoch: real, lo: nat, hi: nat, k: string)
    requires lo <= hi <= |labels| && hi <= |data|
    ensures var h := Hits(labels, data, lo, hi, k);
            RecordRange(ch, labels, data, name, epoch, lo, hi).Get(k) == Extended(ch.Get(k), Repeat(epoch, |h|), h, k, name)
    decreases hi
  {
    if hi == lo {
      assert Repeat(epoch, 0) == [];
    } else {
      RecordRangeGet(ch, labels, data, name, epoch, lo, hi - 1, k);
      var prev := RecordRange(ch, labels, data, name, epoch, lo, hi - 1);
      var hp := Hits(labels, data, lo, hi - 1, k);
      var y := data[hi - 1];
      RecordGet(prev, labels[hi - 1], epoch, y, name, k);
      if labels[hi - 1] == k {
        ExtendedRepeatStep(ch.Get(k), hp, epoch, y, k, name);
      }
    }
  }

  /** Recording keeps the ordered map well formed and only appends to its order. */
  lemma {:induction false} RecordRangeValid(ch: Channels, labels: seq<string>, data: seq<real>, name: string, epoch: real, lo: nat, hi: nat)
    requires lo <= hi <= |labels| && hi <= |data|
    requires ch.Valid()
    ensures var r := RecordRange(ch, labels, data, name, epoch, lo, hi);
            r.Valid() && |ch.order| <= |r.order| && r.order[..|ch.order|] == ch.order
    decreases hi
  {
    if hi > lo {
      RecordRangeValid(ch, labels, data, name, epoch, lo, hi - 1);
      var prev := RecordRange(ch, labels, data, name, epoch, lo, hi - 1);
      var key := labels[hi - 1];
      PutKeys(prev, key, AddPointTo(prev.Get(key), epoch, data[hi - 1], key, name), ch.order);
    }
  }

  /** The keys after recording: the old keys plus every label consumed. */
  lemma {:induction false} RecordRangeKeys(ch: Channels, labels: seq<string>, data: seq<real>, name: string, epoch: real, lo: nat, hi: nat)
    requires lo <= hi <= |labels| && hi <= |data|
    ensures RecordRange(ch, labels, data, name, epoch, lo, hi).series.Keys == ch.series.Keys + (set i | lo <= i < hi :: labels[i])
    decreases hi
  {
    if hi > lo {
      RecordRangeKeys(ch, labels, data, name, epoch, lo, hi - 1);
      LabelsSnoc(labels, lo, hi);
    }
  }

  /** The labels of positions lo..hi are those of lo..hi-1 and the last one. */
  lemma LabelsSnoc(labels: seq<string>, lo: nat, hi: nat)
    requires lo < hi <= |labels|
    ensures (set i | lo <= i < hi :: labels[i]) == (set i | lo <= i < hi - 1 :: labels[i]) + {labels[hi - 1]}
  {
  }

  /** Put adds its key to the key set and keeps every prefix of the order. */
  lemma PutKeys(ch: Channels, k: string, v: seq<PlotData>, p: seq<string>)
    requires ch.Valid()
    requires |p| <= |ch.order| && ch.order[..|p|] == p
    ensures var r := ch.Put(k, v);
            r.Valid() && r.series.Keys == ch.series.Keys + {k} &&
            |p| <= |r.order| && r.order[..|p|] == p
  {
    PutValid(ch, k, v);
    if k !in ch.series {
      assert (ch.order + [k])[..|p|] == ch.order[..|p|];
    }
  }

  /** Recording keeps every plot aligned. */
  lemma {:induction false} RecordRangeAligned(ch: Channels, labels: seq<string>, data: seq<real>, name: string, epoch: real, lo: nat, hi: nat)
    requires lo <= hi <= |labels| && hi <= |data|
    requires ch.AllAlignedIn()
    ensures RecordRange(ch, labels, data, name, epoch, lo, hi).AllAlignedIn()
    decreases hi
  {
    if hi > lo {
      RecordRangeAligned(ch, labels, data, name, epoch, lo, hi - 1);
      var prev := RecordRange(ch, labels, data, name, epoch, lo, hi - 1);
      AddPointToAligned(prev.Get(labels[hi - 1]), epoch, data[hi - 1], labels[hi - 1], name);
    }
  }

  /**
   * BaseMetrics.add_data: for each of the next n_data positions, key the
   * value by the label at that position, creating the key's list only when
   * absent; returns the last position consumed (index + n_data).
   */
  method AddData(labels: seq<string>, name: string, ch: Channels, nData: nat, index: nat, data: seq<real>, epoch: real)
    returns (r: Channels, last: nat)
    requires index + nData < |labels| && index + nData < |data|
    ensures last == index + nData
    ensures r == RecordAfter(ch, labels, data, name, epoch, index, nData)
  {
    r, last := ch, index;
    for i := 0 to nData
      invariant last == index + i
      invariant r == RecordRange(ch, labels, data, name, epoch, index + 1, last + 1)
    {
      last := last + 1;
      var key := labels[last];
      var plots := if key in r.series then r.series[key] else [];
      r := r.Put(key, AddPointTo(plots, epoch, data[last], key, name));
    }
  }

  /**
   * Merge the entries of `b` under its first n keys into `a`, in order:
   * concatenate or adopt.
   */
  function MergeFirst(a: Channels, b: Channels, n: nat): Channels
    requires n <= |b.order|
    decreases n
  {
    if n == 0 then a
    else
      var acc := MergeFirst(a, b, n - 1);
      var k := b.order[n - 1];
      acc.Put(k, acc.Get(k) + b.Get(k))
  }

  /**
   * The key loop of append_metric over the other ledger's map: self's order
   * is kept and grows by at most other's keys.
   */
  function MergeChannels(a: Channels, b: Channels): (r: Channels)
    ensures |a.order| <= |r.order| <= |a.order| + |b.order|
  {
    MergeFirstOrder(a, b, |b.order|);
    MergeFirst(a, b, |b.order|)
  }

  /** Each merged key adds at most one key to the order. */
  lemma {:induction false} MergeFirstOrder(a: Channels, b: Channels, n: nat)
    requires n <= |b.order|
    ensures Grows(a.order, MergeFirst(a, b, n).order, n)
  {
    if n > 0 {
      MergeFirstOrder(a, b, n - 1);
      MergeStepOrder(a, b, n);
    }
  }

  /** Merging the n-th key lengthens the key order by at most one key. */
  lemma MergeStepOrder(a: Channels, b: Channels, n: nat)
    requires 0 < n <= |b.order|
    ensures Grows(MergeFirst(a, b, n - 1).order, MergeFirst(a, b, n).order, 1)
  {
  }

  /** `after` is `before` lengthened by at most n keys. */
  predicate Grows(before: seq<string>, after: seq<string>, n: nat)
  {
    |before| <= |after| <= |before| + n
  }

  /** k is one of the first n keys. */
  predicate Among(keys: seq<string>, n: nat, k: string)
    requires n <= |keys|
    decreases n
  {
    n > 0 && (keys[n - 1] == k || Among(keys, n - 1, k))
  }

  /** Reading back a key after a Put. */
  lemma PutGet(ch: Channels, key: string, v: seq<PlotData>, k: string)
    ensures ch.Put(key, v).Get(k) == if k == key then v else ch.Get(k)
  {
  }

  /** One merge step, read back at any key. */
  lemma MergeFirstStep(a: Channels, b: Channels, n: nat, k: string)
    requires 0 < n <= |b.order|
    ensures MergeFirst(a, b, n).Get(k) ==
            if k == b.order[n - 1] then MergeFirst(a, b, n - 1).Get(k) + b.Get(k) else MergeFirst(a, b, n - 1).Get(k)
    ensures k in MergeFirst(a, b, n).series <==> k in MergeFirst(a, b, n - 1).series || k == b.order[n - 1]
  {
    var acc := MergeFirst(a, b, n - 1);
    var last := b.order[n - 1];
    PutGet(acc, last, acc.Get(last) + b.Get(last), k);
  }

  lemma {:induction false} MergeFirstGet(a: Channels, b: Channels, n: nat, k: string)
    requires n <= |b.order|
    requires Distinct(b.order, n)
    ensures MergeFirst(a, b, n).Get(k) == if Among(b.order, n, k) then a.Get(k) + b.Get(k) else a.Get(k)
  {
    if n > 0 {
      MergeFirstGet(a, b, n - 1, k);
      MergeFirstStep(a, b, n, k);
    }
  }

  /** Merging one key keeps a map well formed. */
  lemma MergeStepValid(acc: Channels, b: Channels, k: string)
    requires acc.Valid()
    ensures acc.Put(k, acc.Get(k) + b.Get(k)).Valid()
  {
    PutValid(acc, k, acc.Get(k) + b.Get(k));
  }

  lemma {:induction false} MergeFirstValid(a: Channels, b: Channels, n: nat)
    requires n <= |b.order|
    requires a.Valid()
    ensures MergeFirst(a, b, n).Valid()
  {
    if n > 0 {
      var acc := MergeFirst(a, b, n - 1);
      MergeFirstValid(a, b, n - 1);
      MergeStepValid(acc, b, b.order[n - 1]);
    }
  }

  lemma {:induction false} MergeFirstKeys(a: Channels, b: Channels, n: nat, k: string)
    requires n <= |b.order|
    ensures k in MergeFirst(a, b, n).series <==> k in a.series || Among(b.order, n, k)
  {
    if n > 0 {
      MergeFirstKeys(a, b, n - 1, k);
      MergeFirstStep(a, b, n, k);
    }
  }

  /**
   * append_metric on one map: a key in both has self's plots followed by
   * other's, a key only in other is adopted, a key only in self is kept;
   * the keys are the union.
   */
  lemma MergeChannelsSpec(a: Channels, b: Channels)
    requires a.Valid() && b.Valid()
    ensures var r := MergeChannels(a, b);
            r.Valid() &&
            r.series.Keys == a.series.Keys + b.series.Keys &&
            forall k :: r.Get(k) == a.Get(k) + b.Get(k)
  {
    var r := MergeChannels(a, b);
    MergeFirstValid(a, b, |b.order|);
    ListsExactlyDistinct(b.order, |b.order|, b.series.Keys);
    forall k ensures k in r.series <==> k in a.series || k in b.series {
      MergeFirstKeys(a, b, |b.order|, k);
      ValidKeys(b, k);
    }
    forall k ensures r.Get(k) == a.Get(k) + b.Get(k) {
      MergeFirstGet(a, b, |b.order|, k);
      ValidKeys(b, k);
      if k !in b.series {
        assert a.Get(k) + [] == a.Get(k);
      }
    }
  }

  /** Merging keeps every plot aligned. */
  lemma MergeChannelsAligned(a: Channels, b: Channels)
    requires a.Valid() && b.Valid() && a.AllAlignedIn() && b.AllAlignedIn()
    ensures MergeChannels(a, b).AllAlignedIn()
  {
    var r := MergeChannels(a, b);
    MergeChannelsSpec(a, b);
    forall k | k in r.series ensures AllAligned(r.series[k]) {
      assert r.series[k] == r.Get(k) == a.Get(k) + b.Get(k);
    }
  }

  /** One iteration of append_metric's key loop: concatenate under a present key, adopt an absent one. */
  lemma MergeFirstNext(a: Channels, b: Channels, i: nat)
    requires i < |b.order|
    ensures var r, key := MergeFirst(a, b, i), b.order[i];
            MergeFirst(a, b, i + 1) ==
            if key in r.series then r.Put(key, r.series[key] + b.Get(key)) else r.Put(key, b.Get(key))
  {
    var r, key := MergeFirst(a, b, i), b.order[i];
    if key !in r.series {
      assert r.Get(key) + b.Get(key) == b.Get(key);
    }
  }

  /** The key loop of append_metric, run in place on self's map. */
  method MergeInto(a: Channels, b: Channels) returns (r: Channels)
    ensures r == MergeChannels(a, b)
  {
    r := a;
    for i := 0 to |b.order|
      invariant r == MergeFirst(a, b, i)
    {
      var key := b.order[i];
      MergeFirstNext(a, b, i);
      if key in r.series {
        r := r.Put(key, r.series[key] + b.Get(key));
      } else {
        r := r.Put(key, b.Get(key));
      }
    }
  }
}
