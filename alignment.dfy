/**
 * Column-wise alignment of series (BaseMetrics._resize_rows and
 * BaseMetrics._get_data_per_col in basemetrics.py): several series of
 * different lengths become the columns of one table, the shorter ones
 * right-padded with NaN. A table is a sequence of rows; a NaN cell is None.
 */
module Alignment {
  import opened Wrappers
  import opened Plots

  type Table = seq<seq<Option<real>>>

  /** Every row of t has c cells. */
  predicate HasWidth(t: Table, c: nat)
  {
    forall i :: 0 <= i < |t| ==> |t[i]| == c
  }

  /** A row of c NaN cells. */
  function NanRow(c: nat): (r: seq<Option<real>>)
    ensures |r| == c
    ensures forall j :: 0 <= j < c ==> r[j].None?
  {
    seq(c, _ => None)
  }

  /**
   * _resize_rows(a, nr) on a table c cells wide: the first min(|a|, nr)
   * rows are kept, and any rows past the end of a are NaN.
   */
  function ResizeRows(a: Table, nr: nat, c: nat): (r: Table)
    ensures |r| == nr
  {
    seq(nr, i requires 0 <= i < nr => if i < |a| then a[i] else NanRow(c))
  }

  /** Resizing keeps the width of the table. */
  lemma ResizeRowsWidth(a: Table, nr: nat, c: nat)
    requires HasWidth(a, c)
    ensures HasWidth(ResizeRows(a, nr, c), c)
  {
    var r := ResizeRows(a, nr, c);
    forall i | 0 <= i < nr
      ensures |r[i]| == c
    {
      if i < |a| {
        assert r[i] == a[i];
      } else {
        assert r[i] == NanRow(c);
      }
    }
  }

  /** Growing a table and shrinking it back gives the table again. */
  lemma ResizeRowsRoundTrip(a: Table, nr: nat, c: nat)
    requires |a| <= nr
    ensures ResizeRows(ResizeRows(a, nr, c), |a|, c) == a
  {
  }

  /** Resizing to the current number of rows changes nothing. */
  lemma ResizeRowsSame(a: Table, c: nat)
    ensures ResizeRows(a, |a|, c) == a
  {
  }

  /** Resizing by steps is resizing once. */
  lemma ResizeRowsTwice(a: Table, n1: nat, n2: nat, c: nat)
    requires |a| <= n1
    ensures ResizeRows(ResizeRows(a, n1, c), n2, c) == ResizeRows(a, n2, c)
  {
  }

  /** Cell i of a series seen as a column: its i-th value, or NaN past its end. */
  function Cell(col: seq<real>, i: nat): Option<real>
  {
    if i < |col| then Some(col[i]) else None
  }

  /** The first k series side by side as columns, padded or cut to n rows. */
  function Padded(cols: seq<seq<real>>, k: nat, n: nat): (t: Table)
    requires k <= |cols|
    ensures |t| == n && HasWidth(t, k)
  {
    seq(n, i requires 0 <= i < n => seq(k, j requires 0 <= j < k => Cell(cols[j], i)))
  }

  function Max(a: nat, b: nat): nat
  {
    if a < b then b else a
  }

  /** The length of the longest of the first k series (0 when k is 0). */
  function MaxLen(cols: seq<seq<real>>, k: nat): nat
    requires k <= |cols|
  {
    if k == 0 then 0 else Max(MaxLen(cols, k - 1), |cols[k - 1]|)
  }

  /** MaxLen is an upper bound of the lengths, and one of them when k > 0. */
  lemma {:induction false} MaxLenBounds(cols: seq<seq<real>>, k: nat)
    requires k <= |cols|
    ensures forall j :: 0 <= j < k ==> |cols[j]| <= MaxLen(cols, k)
    ensures k > 0 ==> exists j :: 0 <= j < k && |cols[j]| == MaxLen(cols, k)
  {
    if k > 0 {
      MaxLenBounds(cols, k - 1);
      if MaxLen(cols, k - 1) < |cols[k - 1]| {
        assert |cols[k - 1]| == MaxLen(cols, k);
      } else if k > 1 {
        var j :| 0 <= j < k - 1 && |cols[j]| == MaxLen(cols, k - 1);
        assert |cols[j]| == MaxLen(cols, k);
      } else {
        assert |cols[0]| == MaxLen(cols, k);
      }
    }
  }

  /** A series as a one-column table. */
  function AsColumn(col: seq<real>): (t: Table)
    ensures |t| == |col| && HasWidth(t, 1)
    ensures forall i :: 0 <= i < |col| ==> t[i] == [Some(col[i])]
  {
    seq(|col|, i requires 0 <= i < |col| => [Some(col[i])])
  }

  /** np.hstack of two tables with the same number of rows. */
  function HStack(a: Table, b: Table): (t: Table)
    requires |a| == |b|
    ensures |t| == |a|
    ensures forall c1: nat, c2: nat :: HasWidth(a, c1) && HasWidth(b, c2) ==> HasWidth(t, c1 + c2)
  {
    seq(|a|, i requires 0 <= i < |a| => a[i] + b[i])
  }

  /** The x values of each series, in list order. */
  function XColumns(dps: seq<PlotData>): (cols: seq<seq<real>>)
    ensures |cols| == |dps|
  {
    seq(|dps|, j requires 0 <= j < |dps| => dps[j].xs)
  }

  /** The y values of each series, in list order. */
  function YColumns(dps: seq<PlotData>): (cols: seq<seq<real>>)
    ensures |cols| == |dps|
  {
    seq(|dps|, j requires 0 <= j < |dps| => dps[j].ys)
  }

  /**
   * The table of all series as columns: one column per series; as many rows
   * as the longest series (so no value is cut off, and no row is NaN in
   * every column); a cell holds the series' value at that row, or NaN past
   * the series' end.
   */
  function PerColumn(cols: seq<seq<real>>): (t: Table)
    ensures HasWidth(t, |cols|)
    ensures forall j :: 0 <= j < |cols| ==> |cols[j]| <= |t|
    ensures |cols| > 0 ==> exists j :: 0 <= j < |cols| && |cols[j]| == |t|
    ensures |cols| == 0 ==> |t| == 0
    ensures forall i, j :: 0 <= j < |cols| && 0 <= i < |cols[j]| ==> t[i][j] == Some(cols[j][i])
    ensures forall i, j :: 0 <= j < |cols| && |cols[j]| <= i < |t| ==> t[i][j].None?
  {
    MaxLenBounds(cols, |cols|);
    Padded(cols, |cols|, MaxLen(cols, |cols|))
  }

  /** Aligned series have x and y columns of the same lengths. */
  lemma {:induction false} MaxLenAligned(dps: seq<PlotData>, k: nat)
    requires AllAligned(dps) && k <= |dps|
    ensures MaxLen(XColumns(dps), k) == MaxLen(YColumns(dps), k)
  {
    if k > 0 {
      MaxLenAligned(dps, k - 1);
      assert dps[k - 1].Aligned();
    }
  }

  /** Padding the first k columns with NaN rows, once they all fit in n rows. */
  lemma PaddedGrow(cols: seq<seq<real>>, k: nat, n: nat, nr: nat)
    requires k <= |cols| && n <= nr
    requires forall j :: 0 <= j < k ==> |cols[j]| <= n
    ensures ResizeRows(Padded(cols, k, n), nr, k) == Padded(cols, k, nr)
  {
    var a, b := ResizeRows(Padded(cols, k, n), nr, k), Padded(cols, k, nr);
    ResizeRowsWidth(Padded(cols, k, n), nr, k);
    forall i | 0 <= i < nr
      ensures a[i] == b[i]
    {
      forall j | 0 <= j < k
        ensures a[i][j] == b[i][j]
      {
        if n <= i {
          assert a[i] == NanRow(k);
          assert Cell(cols[j], i) == None;
        } else {
          assert a[i] == Padded(cols, k, n)[i];
        }
      }
    }
  }

  /** Stacking the next series, already padded to n rows, onto the first k. */
  lemma StackNext(cols: seq<seq<real>>, k: nat, n: nat, x1: Table)
    requires k < |cols| && |x1| == n
    requires forall i :: 0 <= i < n ==> x1[i] == [Cell(cols[k], i)]
    ensures HStack(Padded(cols, k, n), x1) == Padded(cols, k + 1, n)
  {
    var a, b := HStack(Padded(cols, k, n), x1), Padded(cols, k + 1, n);
    forall i | 0 <= i < n
      ensures a[i] == b[i]
    {
      assert a[i] == Padded(cols, k, n)[i] + [Cell(cols[k], i)];
    }
  }

  /** A series padded to n rows has, in row i, its cell i. */
  lemma ColumnCells(col: seq<real>, n: nat)
    requires |col| <= n
    ensures forall i :: 0 <= i < n ==> ResizeRows(AsColumn(col), n, 1)[i] == [Cell(col, i)]
  {
    var r := ResizeRows(AsColumn(col), n, 1);
    forall i | |col| <= i < n
      ensures r[i] == [None]
    {
      assert r[i] == NanRow(1);
    }
  }

  /** The first series alone is the table of one column. */
  lemma FirstColumn(cols: seq<seq<real>>)
    requires 0 < |cols|
    ensures AsColumn(cols[0]) == Padded(cols, 1, MaxLen(cols, 1))
  {
    var a, b := AsColumn(cols[0]), Padded(cols, 1, MaxLen(cols, 1));
    forall i | 0 <= i < |a|
      ensures a[i] == b[i]
    {
      assert b[i] == [Cell(cols[0], i)];
    }
  }

  /**
   * The loop body of _get_data_per_col for series k > 0 on one table:
   * grow the table when the series is longer, pad the series when it is
   * shorter, then stack it on as the next column.
   */
  lemma AddColumnStep(cols: seq<seq<real>>, k: nat, x: Table)
    requires 0 < k < |cols|
    requires x == Padded(cols, k, MaxLen(cols, k))
    ensures var n, m := MaxLen(cols, k), |cols[k]|;
            var x1 := AsColumn(cols[k]);
            (m > n ==> HStack(ResizeRows(x, m, k), x1) == Padded(cols, k + 1, MaxLen(cols, k + 1))) &&
            (m < n ==> HStack(x, ResizeRows(x1, n, 1)) == Padded(cols, k + 1, MaxLen(cols, k + 1))) &&
            (m == n ==> HStack(x, x1) == Padded(cols, k + 1, MaxLen(cols, k + 1)))
  {
    var n, m := MaxLen(cols, k), |cols[k]|;
    MaxLenBounds(cols, k);
    if m > n {
      PaddedGrow(cols, k, n, m);
      StackNext(cols, k, m, AsColumn(cols[k]));
    } else if m < n {
      ColumnCells(cols[k], n);
      StackNext(cols, k, n, ResizeRows(AsColumn(cols[k]), n, 1));
    } else {
      StackNext(cols, k, n, AsColumn(cols[k]));
    }
  }

  /**
   * _get_data_per_col: nothing for an empty list; otherwise the x values
   * and the y values of the series as columns, each right-padded with NaN
   * to the length of the longest series.
   */
  method GetDataPerCol(dps: seq<PlotData>) returns (r: Option<(Table, Table)>)
    requires AllAligned(dps)
    ensures |dps| == 0 ==> r == None
    ensures |dps| > 0 ==> r == Some((PerColumn(XColumns(dps)), PerColumn(YColumns(dps))))
  {
    var x: Table, y: Table, n: nat := [], [], 0;
    var started := false;  // y is no longer None
    for k := 0 to |dps|
      invariant started <==> k > 0
      invariant n == MaxLen(XColumns(dps), k) == MaxLen(YColumns(dps), k)
      invariant started ==> x == Padded(XColumns(dps), k, n) && y == Padded(YColumns(dps), k, n)
    {
      assert dps[k].Aligned();
      MaxLenAligned(dps, k + 1);
      var x1, y1 := AsColumn(dps[k].xs), AsColumn(dps[k].ys);
      var m := |dps[k].xs|;
      if !started {
        FirstColumn(XColumns(dps));
        FirstColumn(YColumns(dps));
        x, y := x1, y1;
        started := true;
      } else {
        AddColumnStep(XColumns(dps), k, x);
        AddColumnStep(YColumns(dps), k, y);
        if m > n {
          x, y := ResizeRows(x, m, k), ResizeRows(y, m, k);
        } else if m < n {
          x1, y1 := ResizeRows(x1, n, 1), ResizeRows(y1, n, 1);
        }
        x, y := HStack(x, x1), HStack(y, y1);
      }
      n := Max(n, m);
    }
    r := if started then Some((x, y)) else None;
  }
}
