/** The script body: it changes the uploaded data frame in place, adding the
    two score columns and the category column, after checking that the
    required columns are present. */
module App {
  import opened Frame
  import opened Normalize
  import opened Classify
  import opened Pipeline

  /** One pass over the cells of column `name`: a type error at the first
      text cell, otherwise the smallest and largest number, missing values
      skipped. */
  method ScanExtent(cells: seq<Cell>, name: string) returns (r: Result<Extent>)
    ensures r.Err? <==> HasText(cells)
    ensures r.Err? ==> r.error == DataTypeError(name)
    ensures r.Ok? ==> r.value == ExtentOf(cells)
  {
    var e := NoValues;
    var i := 0;
    while i < |cells|
      invariant 0 <= i <= |cells|
      invariant forall k :: 0 <= k < i ==> !cells[k].Text?
      invariant e == ExtentOf(cells[..i])
    {
      var c := cells[i];
      if c.Text? {
        return Err(DataTypeError(name));
      }
      ghost var prefix := cells[..i + 1];
      assert prefix[..i] == cells[..i] && prefix[i] == c;
      if c.Num? {
        if e.NoValues? {
          e := Extent(c.x, c.x);
        } else {
          e := Extent(if c.x < e.lo then c.x else e.lo, if e.hi < c.x then c.x else e.hi);
        }
      }
      assert e == ExtentOf(prefix);
      i := i + 1;
    }
    assert cells[..i] == cells;
    return Ok(e);
  }

  /** Rows that hold the score of `src` in `dst` make up the table that
      `AddScores` gives. */
  lemma ScoresWritten(t: Table, src: string, dst: string, rows: seq<Row>)
    requires WellFormed(t) && src in t.columns && !HasText(Column(t, src))
    requires |rows| == |t.rows|
    requires forall k :: 0 <= k < |rows| ==>
               rows[k] == t.rows[k][dst := Scale(t.rows[k][src], ExtentOf(Column(t, src)))]
    ensures AddScores(t, src, dst) == Outcome(Table(AddColumn(t.columns, dst), rows), None)
  {
    var scores := ScoreColumn(Column(t, src));
    forall k | 0 <= k < |rows|
      ensures rows[k] == t.rows[k][dst := scores[k]]
    {
      ScoreColumnAt(Column(t, src), k);
    }
    WithColumnRows(t, dst, scores, rows);
  }

  class DataFrame {
    var columns: seq<string>
    var rows: array<Row>

    function View(): Table
      reads this, rows
    {
      Table(columns, rows[..])
    }

    ghost predicate Valid()
      reads this, rows
    {
      WellFormed(View())
    }

    /** The frame `pd.read_csv` builds from an already parsed table. */
    constructor (t: Table)
      requires WellFormed(t)
      ensures Valid() && View() == t && fresh(rows)
    {
      columns := t.columns;
      rows := new Row[|t.rows|](i requires 0 <= i < |t.rows| => t.rows[i]);
    }

    /** `df[name].min()` and `df[name].max()`: a type error when the column
        holds text, otherwise its smallest and largest number. */
    method ColumnExtent(name: string) returns (r: Result<Extent>)
      requires Valid() && name in columns
      ensures r.Err? <==> HasText(Column(View(), name))
      ensures r.Err? ==> r.error == DataTypeError(name)
      ensures r.Ok? ==> r.value == ExtentOf(Column(View(), name))
    {
      r := ScanExtent(Column(View(), name), name);
    }

    /** Row by row, the score of the cell in `src` written into `dst`. */
    method WriteScores(src: string, dst: string, e: Extent)
      requires src != dst
      requires forall k :: 0 <= k < rows.Length ==> src in rows[k] && !rows[k][src].Text?
      modifies rows
      ensures forall k :: 0 <= k < rows.Length ==> rows[k] == old(rows[k])[dst := Scale(old(rows[k])[src], e)]
    {
      var i := 0;
      while i < rows.Length
        invariant 0 <= i <= rows.Length
        invariant forall k :: 0 <= k < i ==> rows[k] == old(rows[k])[dst := Scale(old(rows[k])[src], e)]
        invariant forall k :: i <= k < rows.Length ==> rows[k] == old(rows[k])
      {
        rows[i] := rows[i][dst := Scale(rows[i][src], e)];
        i := i + 1;
      }
    }

    /** `df[dst] = (df[src] - min) / (max - min) * 100`: first the column
        extent, then the score of every row written into `dst`. */
    method AddScoreColumn(src: string, dst: string) returns (error: Option<Error>)
      requires Valid() && src in columns && src != dst
      modifies this, rows
      ensures Valid() && rows == old(rows)
      ensures Outcome(View(), error) == AddScores(old(View()), src, dst)
    {
      var ext := ColumnExtent(src);
      if ext.Err? {
        return Some(ext.error);
      }
      ghost var before := View();
      assert forall k :: 0 <= k < rows.Length ==> rows[k][src] == Column(before, src)[k];
      WriteScores(src, dst, ext.value);
      columns := AddColumn(columns, dst);
      ScoresWritten(before, src, dst, rows[..]);
      return None;
    }

    /** `df['Category'] = df.apply(classify_supplier, axis=1)` */
    method AddCategoryColumn()
      requires Valid() && RiskScore in columns && ImpactScore in columns
      requires !HasText(Column(View(), RiskScore)) && !HasText(Column(View(), ImpactScore))
      modifies this, rows
      ensures Valid() && rows == old(rows)
      ensures View() == WithCategories(old(View()))
    {
      ghost var before := View();
      ghost var cats := CategoryCells(Column(before, RiskScore), Column(before, ImpactScore));
      var i := 0;
      while i < rows.Length
        invariant 0 <= i <= rows.Length
        invariant columns == before.columns && rows == old(rows)
        invariant forall k :: 0 <= k < i ==> rows[k] == before.rows[k][CategoryColumn := cats[k]]
        invariant forall k :: i <= k < rows.Length ==> rows[k] == before.rows[k]
      {
        assert rows[i][RiskScore] == Column(before, RiskScore)[i];
        assert rows[i][ImpactScore] == Column(before, ImpactScore)[i];
        var category := ClassifySupplier(rows[i][RiskScore], rows[i][ImpactScore]);
        rows[i] := rows[i][CategoryColumn := Text(Label(category))];
        i := i + 1;
      }
      columns := AddColumn(columns, CategoryColumn);
      WithColumnRows(before, CategoryColumn, cats, rows[..]);
    }

    /** The script from the required-column check to the category column;
        the error, if any, is what stopped it. */
    method Run() returns (error: Option<Error>)
      requires Valid()
      modifies this, rows
      ensures Valid() && rows == old(rows)
      ensures Outcome(View(), error) == Script(old(View()))
    {
      if !HasRequired(columns) {
        return Some(SchemaError(Required));
      }
      assert SupplyRisk in Required && ProfitImpact in Required;
      ghost var t := View();
      error := AddScoreColumn(SupplyRisk, RiskScore);
      if error.Some? {
        return;
      }
      ghost var t1 := View();
      assert Column(t1, ProfitImpact) == Column(t, ProfitImpact);
      error := AddScoreColumn(ProfitImpact, ImpactScore);
      if error.Some? {
        return;
      }
      assert Column(View(), RiskScore) == Column(t1, RiskScore);
      AddCategoryColumn();
    }
  }
}
