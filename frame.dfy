/** The data frame the script works on: the table read from the uploaded CSV
    file, as its ordered list of column names and its ordered list of rows.
    Each row maps every column name to the cell it holds. */
module Frame {

  datatype Option<T> = None | Some(value: T)

  /** One cell of the table: a number, a missing value (the data-frame
      library stores it as NaN), or text. */
  datatype Cell = Num(x: real) | NaN | Text(s: string)

  /** A cell of a score column: a number or NaN, never text. */
  type Score = c: Cell | !c.Text? witness NaN

  type Row = map<string, Cell>

  datatype Table = Table(columns: seq<string>, rows: seq<Row>)

  function ColumnSet(columns: seq<string>): set<string>
  {
    set c | c in columns
  }

  /** Every row holds exactly one cell per column. */
  predicate WellFormed(t: Table)
  {
    forall i :: 0 <= i < |t.rows| ==> t.rows[i].Keys == ColumnSet(t.columns)
  }

  /** The column list after `df[name] = ...`: an existing column keeps its
      place, a new one is appended at the end. */
  function AddColumn(columns: seq<string>, name: string): (r: seq<string>)
    ensures ColumnSet(r) == ColumnSet(columns) + {name}
    ensures name in r
    ensures name in columns ==> r == columns
    ensures |columns| <= |r| <= |columns| + 1 && r[..|columns|] == columns
  {
    if name in columns then columns else columns + [name]
  }

  /** The cells of column `name`, in row order (`df[name]`). */
  function Column(t: Table, name: string): (cells: seq<Cell>)
    requires WellFormed(t) && name in t.columns
    ensures |cells| == |t.rows|
    ensures forall i :: 0 <= i < |t.rows| ==> cells[i] == t.rows[i][name]
  {
    seq(|t.rows|, i requires 0 <= i < |t.rows| => t.rows[i][name])
  }

  /** The table after `df[name] = cells`: row i gets cells[i] in column
      `name`, every other cell stays as it was, and the rows keep their
      number and order. */
  function WithColumn(t: Table, name: string, cells: seq<Cell>): (r: Table)
    requires WellFormed(t) && |cells| == |t.rows|
    ensures WellFormed(r)
    ensures r.columns == AddColumn(t.columns, name)
    ensures |r.rows| == |t.rows|
    ensures Column(r, name) == cells
    ensures forall m :: m in t.columns && m != name ==> Column(r, m) == Column(t, m)
  {
    var r := Table(AddColumn(t.columns, name),
                   seq(|t.rows|, i requires 0 <= i < |t.rows| => t.rows[i][name := cells[i]]));
    assert forall i :: 0 <= i < |r.rows| ==> r.rows[i].Keys == ColumnSet(r.columns);
    r
  }

  /** Writing a column's own cells back into it changes nothing. */
  lemma WithOwnColumn(t: Table, name: string)
    requires WellFormed(t) && name in t.columns
    ensures WithColumn(t, name, Column(t, name)) == t
  {
    var r := WithColumn(t, name, Column(t, name));
    assert r.columns == t.columns;
    forall i | 0 <= i < |t.rows|
      ensures r.rows[i] == t.rows[i]
    {
      assert r.rows[i].Keys == t.rows[i].Keys;
      forall k | k in t.rows[i]
        ensures r.rows[i][k] == t.rows[i][k]
      {
        if k != name {
          assert Column(r, k)[i] == Column(t, k)[i];
        }
      }
    }
  }

  /** A table whose rows are those of `t` with `name` set to `cells` row by
      row is the table `WithColumn` gives. */
  lemma WithColumnRows(t: Table, name: string, cells: seq<Cell>, rows: seq<Row>)
    requires WellFormed(t) && |cells| == |t.rows| && |rows| == |t.rows|
    requires forall k :: 0 <= k < |rows| ==> rows[k] == t.rows[k][name := cells[k]]
    ensures WithColumn(t, name, cells) == Table(AddColumn(t.columns, name), rows)
  {
  }
}
