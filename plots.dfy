/**
 * The series store (DataPlot in basemetrics.py): an append-only (x, y)
 * series with a name (the producing model) and a kind (the channel label).
 */
module Plots {

  /** The contents of a DataPlot, as a value. */
  datatype PlotData = PlotData(name: string, kind: string, xs: seq<real>, ys: seq<real>)
  {
    /** Every x has its y. */
    predicate Aligned()
    {
      |xs| == |ys|
    }
  }

  /** A mutable series, appended to in place. */
  class DataPlot {
    var xs: seq<real>
    var ys: seq<real>
    var name: string
    var kind: string

    /** The series this plot currently holds. */
    function Data(): (d: PlotData)
      reads this
      ensures d.xs == xs && d.ys == ys
    {
      PlotData(name, kind, xs, ys)
    }

    constructor (name: string, kind: string)
      ensures Data() == PlotData(name, kind, [], [])
    {
      this.name := name;
      this.kind := kind;
      xs := [];
      ys := [];
    }

    /** reset: forget every point, keep name and kind. */
    method Reset()
      modifies this
      ensures Data() == PlotData(old(name), old(kind), [], [])
    {
      xs := [];
      ys := [];
    }

    /** set_data: replace both coordinate lists (no check that they align). */
    method SetData(x: seq<real>, y: seq<real>)
      modifies this
      ensures Data() == PlotData(old(name), old(kind), x, y)
    {
      xs := x;
      ys := y;
    }

    /** get_data: the two coordinate lists. */
    method GetData() returns (x: seq<real>, y: seq<real>)
      ensures x == xs && y == ys
    {
      x, y := xs, ys;
    }

    /** len_data: the number of x coordinates. */
    method LenData() returns (n: nat)
      ensures n == |xs|
    {
      n := |xs|;
    }

    /**
     * add_point: extend both coordinate lists by exactly one element,
     * so an aligned series stays aligned and grows by one point.
     */
    method AddPoint(x: real, y: real)
      modifies this
      ensures Data() == WithPoint(old(Data()), x, y)
      ensures old(Data()).Aligned() ==> Data().Aligned() && |xs| == |old(xs)| + 1
    {
      xs := xs + [x];
      ys := ys + [y];
    }
  }

  /** The series with one more point at its end. */
  function WithPoint(p: PlotData, x: real, y: real): PlotData
  {
    p.(xs := p.xs + [x], ys := p.ys + [y])
  }

  /** The series with several points appended, in order. */
  function WithPoints(p: PlotData, xs: seq<real>, ys: seq<real>): PlotData
  {
    p.(xs := p.xs + xs, ys := p.ys + ys)
  }

  /**
   * The plot a list of DataPlots appends to: its first element, or the
   * empty plot that add_point creates when the list is empty.
   */
  function HeadOr(plots: seq<PlotData>, kind: string, name: string): PlotData
  {
    if |plots| == 0 then PlotData(name, kind, [], []) else plots[0]
  }

  /**
   * A list of plots after its head received points xs/ys: unchanged when
   * there are no points, otherwise the (possibly new) head extended and the
   * other plots untouched.
   */
  function Extended(plots: seq<PlotData>, xs: seq<real>, ys: seq<real>, kind: string, name: string): seq<PlotData>
  {
    if |xs| == 0 && |ys| == 0 then plots
    else if |plots| == 0 then [WithPoints(PlotData(name, kind, [], []), xs, ys)]
    else plots[0 := WithPoints(plots[0], xs, ys)]
  }

  /**
   * BaseMetrics.add_point on a list of plots: create a plot only when the
   * list is empty, then append (x, y) to the first plot. The other plots
   * are untouched.
   */
  function AddPointTo(plots: seq<PlotData>, x: real, y: real, kind: string, name: string): (r: seq<PlotData>)
    ensures |r| == if |plots| == 0 then 1 else |plots|
    ensures r[0] == HeadOr(plots, kind, name).(xs := HeadOr(plots, kind, name).xs + [x], ys := HeadOr(plots, kind, name).ys + [y])
    ensures forall i :: 1 <= i < |r| ==> r[i] == plots[i]
  {
    if |plots| == 0 then [WithPoint(PlotData(name, kind, [], []), x, y)]
    else plots[0 := WithPoint(plots[0], x, y)]
  }

  /** Every plot of the list is aligned. */
  predicate AllAligned(plots: seq<PlotData>)
  {
    forall i :: 0 <= i < |plots| ==> plots[i].Aligned()
  }

  /** add_point keeps every plot of an aligned list aligned. */
  lemma AddPointToAligned(plots: seq<PlotData>, x: real, y: real, kind: string, name: string)
    requires AllAligned(plots)
    ensures AllAligned(AddPointTo(plots, x, y, kind, name))
  {
    var r := AddPointTo(plots, x, y, kind, name);
    forall i | 0 <= i < |r| ensures r[i].Aligned() {
      if i > 0 {
        assert r[i] == plots[i];
      }
    }
  }

  /** Appending one more point to an extended list extends it by that point. */
  lemma ExtendedThenAddPoint(plots: seq<PlotData>, xs: seq<real>, ys: seq<real>, x: real, y: real, kind: string, name: string)
    ensures AddPointTo(Extended(plots, xs, ys, kind, name), x, y, kind, name)
         == Extended(plots, xs + [x], ys + [y], kind, name)
  {
    var e := Extended(plots, xs, ys, kind, name);
    var h := HeadOr(plots, kind, name);
    if |xs| == 0 && |ys| == 0 {
      assert xs + [x] == [x] && ys + [y] == [y];
    } else {
      assert e[0] == WithPoints(h, xs, ys);
      assert h.xs + (xs + [x]) == (h.xs + xs) + [x];
      assert h.ys + (ys + [y]) == (h.ys + ys) + [y];
    }
  }

  /** add_point is the one-point case of Extended. */
  lemma AddPointToIsExtended(plots: seq<PlotData>, x: real, y: real, kind: string, name: string)
    ensures AddPointTo(plots, x, y, kind, name) == Extended(plots, [x], [y], kind, name)
  {
    ExtendedThenAddPoint(plots, [], [], x, y, kind, name);
    assert [] + [x] == [x] && [] + [y] == [y];
  }
}
