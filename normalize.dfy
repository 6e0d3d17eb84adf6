/** Min-max normalisation of one numeric column onto the 0-100 scale:
    `(v - min) / (max - min) * 100`, where min and max are taken over the
    whole column and missing values are skipped, as the data-frame library's
    `min` and `max` do. */
module Normalize {
  import opened Frame

  /** The smallest and largest number in a column; `NoValues` when the
      column holds no number at all (the library's min and max are then NaN). */
  datatype Extent = NoValues | Extent(lo: real, hi: real)

  /** A text cell in a numeric column makes the library raise a type error. */
  predicate HasText(cells: seq<Cell>)
  {
    exists i :: 0 <= i < |cells| && cells[i].Text?
  }

  /** The column minimum and maximum over the numeric cells. */
  function ExtentOf(cells: seq<Cell>): (e: Extent)
    ensures e.NoValues? <==> forall i :: 0 <= i < |cells| ==> !cells[i].Num?
    ensures e.Extent? ==> e.lo <= e.hi
    ensures e.Extent? ==> exists i :: 0 <= i < |cells| && cells[i] == Num(e.lo)
    ensures e.Extent? ==> exists i :: 0 <= i < |cells| && cells[i] == Num(e.hi)
    ensures e.Extent? ==> forall i :: 0 <= i < |cells| && cells[i].Num? ==> e.lo <= cells[i].x <= e.hi
    decreases |cells|
  {
    if cells == [] then NoValues
    else
      var init := cells[..|cells| - 1];
      var last := cells[|cells| - 1];
      var e := ExtentOf(init);
      assert forall i :: 0 <= i < |init| ==> init[i] == cells[i];
      if !last.Num? then e
      else if e.NoValues? then Extent(last.x, last.x)
      else Extent(if last.x < e.lo then last.x else e.lo, if e.hi < last.x then last.x else e.hi)
  }

  /** The score of one cell: NaN when the cell is missing, when the column
      holds no number, or when its max equals its min (every number of the
      column is then the minimum, and the division is 0 / 0). */
  function Scale(c: Score, e: Extent): (r: Score)
    ensures r.Num? <==> c.Num? && e.Extent? && e.lo != e.hi
    ensures r.Num? && e.lo <= c.x <= e.hi ==> 0.0 <= r.x <= 100.0
    ensures r.Num? && c.x == e.lo ==> r.x == 0.0
    ensures r.Num? && c.x == e.hi ==> r.x == 100.0
  {
    if c.Num? && e.Extent? && e.lo != e.hi then
      var d := e.hi - e.lo;
      PercentEnds(d);
      PercentBounds(c.x - e.lo, d);
      Num(Percent(c.x - e.lo, d))
    else NaN
  }

  /** `a / d * 100` */
  function Percent(a: real, d: real): real
    requires d != 0.0
  {
    a / d * 100.0
  }

  lemma PercentEnds(d: real)
    requires d != 0.0
    ensures Percent(0.0, d) == 0.0 && Percent(d, d) == 100.0
  {
    assert d / d == 1.0;
  }

  lemma PercentBounds(a: real, d: real)
    requires d != 0.0
    ensures 0.0 <= a <= d ==> 0.0 <= Percent(a, d) <= 100.0
  {
    if 0.0 <= a <= d {
      var q := a / d;
      assert q * d == a;
      assert (1.0 - q) * d == d - a;
    }
  }

  lemma PercentMonotone(a: real, b: real, d: real)
    requires a <= b && 0.0 < d
    ensures Percent(a, d) <= Percent(b, d)
  {
    assert (b - a) / d >= 0.0;
    assert b / d - a / d == (b - a) / d;
  }

  /** The score column computed from a numeric column (`df[col]` to
      `df[col + '_Score']`): one score per row, in row order, each NaN or a
      number between 0 and 100. */
  function ScoreColumn(cells: seq<Cell>): (scores: seq<Score>)
    requires !HasText(cells)
    ensures |scores| == |cells|
    ensures forall i :: 0 <= i < |cells| ==> scores[i] == NaN || 0.0 <= scores[i].x <= 100.0
  {
    var e := ExtentOf(cells);
    seq(|cells|, i requires 0 <= i < |cells| => Scale(cells[i], e))
  }

  /** Row i of the score column is the score of row i's cell. */
  lemma ScoreColumnAt(cells: seq<Cell>, i: nat)
    requires !HasText(cells) && i < |cells|
    ensures ScoreColumn(cells)[i] == Scale(cells[i], ExtentOf(cells))
  {
  }

  /** The row holding the column minimum scores 0, provided the column
      holds some other number (otherwise max equals min). */
  lemma ScoreAtMinimum(cells: seq<Cell>, i: nat, j: nat)
    requires !HasText(cells) && i < |cells| && j < |cells|
    requires cells[i].Num? && cells[j].Num? && cells[j].x != cells[i].x
    requires forall k :: 0 <= k < |cells| && cells[k].Num? ==> cells[i].x <= cells[k].x
    ensures ScoreColumn(cells)[i] == Num(0.0)
  {
    var e := ExtentOf(cells);
    var k :| 0 <= k < |cells| && cells[k] == Num(e.lo);
    assert e.lo == cells[i].x;
    assert e.lo < e.hi by {
      assert e.lo <= cells[j].x <= e.hi;
    }
    PercentEnds(e.hi - e.lo);
    ScoreColumnAt(cells, i);
  }

  /** The row holding the column maximum scores 100, provided the column
      holds some other number (otherwise max equals min). */
  lemma ScoreAtMaximum(cells: seq<Cell>, i: nat, j: nat)
    requires !HasText(cells) && i < |cells| && j < |cells|
    requires cells[i].Num? && cells[j].Num? && cells[j].x != cells[i].x
    requires forall k :: 0 <= k < |cells| && cells[k].Num? ==> cells[k].x <= cells[i].x
    ensures ScoreColumn(cells)[i] == Num(100.0)
  {
    var e := ExtentOf(cells);
    var k :| 0 <= k < |cells| && cells[k] == Num(e.hi);
    assert e.hi == cells[i].x;
    assert e.lo < e.hi by {
      assert e.lo <= cells[j].x <= e.hi;
    }
    PercentEnds(e.hi - e.lo);
    ScoreColumnAt(cells, i);
  }

  /** A score is a number exactly when the row's cell is a number and the
      column holds two different numbers; otherwise it is NaN. */
  lemma ScoreDefined(cells: seq<Cell>, i: nat)
    requires !HasText(cells) && i < |cells|
    ensures ScoreColumn(cells)[i].Num? <==>
            cells[i].Num? && exists j :: 0 <= j < |cells| && cells[j].Num? && cells[j].x != cells[i].x
  {
    var e := ExtentOf(cells);
    ScoreColumnAt(cells, i);
    if cells[i].Num? && e.lo != e.hi {
      if e.lo != cells[i].x {
        var j :| 0 <= j < |cells| && cells[j] == Num(e.lo);
        assert cells[j].x != cells[i].x;
      } else {
        var j :| 0 <= j < |cells| && cells[j] == Num(e.hi);
        assert cells[j].x != cells[i].x;
      }
    }
  }

  /** Normalisation keeps the order of the raw values: a row whose value is
      at most another's gets a score at most the other's. */
  lemma ScoreMonotone(cells: seq<Cell>, i: nat, j: nat)
    requires !HasText(cells) && i < |cells| && j < |cells|
    requires cells[i].Num? && cells[j].Num? && cells[i].x <= cells[j].x
    ensures ScoreColumn(cells)[i].Num? == ScoreColumn(cells)[j].Num?
    ensures ScoreColumn(cells)[i].Num? ==> ScoreColumn(cells)[i].x <= ScoreColumn(cells)[j].x
  {
    var e := ExtentOf(cells);
    ScoreColumnAt(cells, i);
    ScoreColumnAt(cells, j);
    if e.lo != e.hi {
      PercentMonotone(cells[i].x - e.lo, cells[j].x - e.lo, e.hi - e.lo);
    }
  }
}
