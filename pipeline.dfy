/** What the script does to the uploaded table, as a function of the table:
    the required-column check, the two score columns, the category column,
    and the category counts shown in the bar chart. */
module Pipeline {
  import opened Frame
  import opened Normalize
  import opened Classify

  const Supplier: string := "Supplier"
  const SupplyRisk: string := "Supply_Risk"
  const ProfitImpact: string := "Profit_Impact"
  const RiskScore: string := "Supply_Risk_Score"
  const ImpactScore: string := "Profit_Impact_Score"
  const CategoryColumn: string := "Category"

  const Required: seq<string> := [Supplier, SupplyRisk, ProfitImpact]

  /** The columns the script writes. */
  const Derived: seq<string> := [RiskScore, ImpactScore, CategoryColumn]

  /** SchemaError: a required column is missing (reported on the page).
      DataTypeError: a score column holds text (the library raises). */
  datatype Error = SchemaError(required: seq<string>) | DataTypeError(column: string)

  datatype Result<T> = Ok(value: T) | Err(error: Error)

  /** The data frame as the script leaves it, and the error that stopped the
      script, if any. */
  datatype Outcome = Outcome(table: Table, error: Option<Error>)

  /** `all(col in df.columns for col in required_cols)` */
  function HasRequired(columns: seq<string>): (ok: bool)
    ensures ok <==> Supplier in columns && SupplyRisk in columns && ProfitImpact in columns
  {
    forall c :: c in Required ==> c in columns
  }

  ghost predicate OccursAt(needle: string, hay: string, p: int)
  {
    0 <= p <= |hay| - |needle| && hay[p..p + |needle|] == needle
  }

  /** `needle` is a substring of `hay`. */
  ghost predicate Occurs(needle: string, hay: string)
  {
    exists p :: OccursAt(needle, hay, p)
  }

  /** A substring of either half is a substring of the concatenation. */
  lemma OccursInConcat(needle: string, a: string, b: string)
    ensures Occurs(needle, a) ==> Occurs(needle, a + b)
    ensures Occurs(needle, b) ==> Occurs(needle, a + b)
  {
    if Occurs(needle, a) {
      var p :| OccursAt(needle, a, p);
      assert (a + b)[p..p + |needle|] == a[p..p + |needle|];
      assert OccursAt(needle, a + b, p);
    }
    if Occurs(needle, b) {
      var p :| OccursAt(needle, b, p);
      assert (a + b)[|a| + p..|a| + p + |needle|] == b[p..p + |needle|];
      assert OccursAt(needle, a + b, |a| + p);
    }
  }

  /** `sep.join(parts)`: every part appears in the joined string. */
  function Join(parts: seq<string>, sep: string): (r: string)
    ensures forall k :: 0 <= k < |parts| ==> Occurs(parts[k], r)
  {
    if |parts| == 0 then ""
    else if |parts| == 1 then
      assert OccursAt(parts[0], parts[0], 0);
      parts[0]
    else
      var rest := Join(parts[1..], sep);
      forall k | 0 <= k < |parts|
        ensures Occurs(parts[k], parts[0] + sep + rest)
      {
        if k == 0 {
          assert OccursAt(parts[0], parts[0], 0);
          OccursInConcat(parts[0], parts[0], sep + rest);
          assert parts[0] + (sep + rest) == parts[0] + sep + rest;
        } else {
          assert parts[k] == parts[1..][k - 1];
          OccursInConcat(parts[k], parts[0] + sep, rest);
        }
      }
      parts[0] + sep + rest
  }

  const SchemaPrefix: string := "\U{274C} The dataset must contain the following columns: "

  /** The error shown when a required column is missing; it names every
      required column. */
  function SchemaMessage(required: seq<string>): (m: string)
    ensures forall k :: 0 <= k < |required| ==> Occurs(required[k], m)
  {
    var joined := Join(required, ", ");
    forall k | 0 <= k < |required|
      ensures Occurs(required[k], SchemaPrefix + joined)
    {
      OccursInConcat(required[k], SchemaPrefix, joined);
    }
    SchemaPrefix + joined
  }

  /** The message the script shows lists the three required columns,
      comma-separated, in their order. */
  lemma RequiredMessage()
    ensures SchemaMessage(Required) == SchemaPrefix + "Supplier, Supply_Risk, Profit_Impact"
  {
    var last := [ProfitImpact];
    var tail := [SupplyRisk, ProfitImpact];
    assert tail[1..] == last;
    assert Required[1..] == tail;
    assert Join(last, ", ") == ProfitImpact;
    assert Join(tail, ", ") == SupplyRisk + ", " + ProfitImpact;
    assert Join(Required, ", ") == Supplier + ", " + SupplyRisk + ", " + ProfitImpact;
  }

  /** `df[dst] = (df[src] - df[src].min()) / (df[src].max() - df[src].min()) * 100`:
      a type error when the source column holds text, and otherwise the score
      column written into `dst`, every other column left as it was. */
  function AddScores(t: Table, src: string, dst: string): (r: Outcome)
    requires WellFormed(t) && src in t.columns
    ensures WellFormed(r.table)
    ensures r.error.Some? <==> HasText(Column(t, src))
    ensures r.error.Some? ==> r == Outcome(t, Some(DataTypeError(src)))
    ensures r.error.None? ==>
              && r.table.columns == AddColumn(t.columns, dst)
              && |r.table.rows| == |t.rows|
              && Column(r.table, dst) == ScoreColumn(Column(t, src))
              && forall m :: m in t.columns && m != dst ==> Column(r.table, m) == Column(t, m)
  {
    var cells := Column(t, src);
    if HasText(cells) then Outcome(t, Some(DataTypeError(src)))
    else Outcome(WithColumn(t, dst, ScoreColumn(cells)), None)
  }

  /** `df.apply(classify_supplier, axis=1)` over two score columns. */
  function CategoryCells(risk: seq<Score>, impact: seq<Score>): (cells: seq<Cell>)
    requires |risk| == |impact|
    ensures |cells| == |risk|
    ensures forall i :: 0 <= i < |risk| ==> cells[i] == Text(Label(ClassifySupplier(risk[i], impact[i])))
  {
    seq(|risk|, i requires 0 <= i < |risk| => Text(Label(ClassifySupplier(risk[i], impact[i]))))
  }

  /** The category column holds `classify_supplier` of the two score
      columns, row by row. */
  predicate Classified(t: Table)
  {
    && WellFormed(t)
    && RiskScore in t.columns && ImpactScore in t.columns && CategoryColumn in t.columns
    && !HasText(Column(t, RiskScore)) && !HasText(Column(t, ImpactScore))
    && Column(t, CategoryColumn) == CategoryCells(Column(t, RiskScore), Column(t, ImpactScore))
  }

  /** `df['Category'] = df.apply(classify_supplier, axis=1)` */
  function WithCategories(t: Table): (r: Table)
    requires WellFormed(t) && RiskScore in t.columns && ImpactScore in t.columns
    requires !HasText(Column(t, RiskScore)) && !HasText(Column(t, ImpactScore))
    ensures Classified(r)
    ensures r.columns == AddColumn(t.columns, CategoryColumn) && |r.rows| == |t.rows|
    ensures forall m :: m in t.columns && m != CategoryColumn ==> Column(r, m) == Column(t, m)
  {
    WithColumn(t, CategoryColumn, CategoryCells(Column(t, RiskScore), Column(t, ImpactScore)))
  }

  /** The whole script from the required-column check to the category column. */
  function Script(t: Table): (r: Outcome)
    requires WellFormed(t)
    ensures WellFormed(r.table)
    ensures r.error == Some(SchemaError(Required)) <==> !HasRequired(t.columns)
    ensures !HasRequired(t.columns) ==> r.table == t
    ensures r.error.None? ==>
              r.table.columns == AddColumn(AddColumn(AddColumn(t.columns, RiskScore), ImpactScore), CategoryColumn)
    ensures r.error.None? ==> Classified(r.table)
    ensures r.error.None? <==>
              HasRequired(t.columns) && !HasText(Column(t, SupplyRisk)) && !HasText(Column(t, ProfitImpact))
    ensures r.error == Some(DataTypeError(SupplyRisk)) <==>
              HasRequired(t.columns) && HasText(Column(t, SupplyRisk))
    ensures r.error == Some(DataTypeError(SupplyRisk)) ==> r.table == t
    ensures r.error == Some(DataTypeError(ProfitImpact)) <==>
              HasRequired(t.columns) && !HasText(Column(t, SupplyRisk)) && HasText(Column(t, ProfitImpact))
    ensures r.error == Some(DataTypeError(ProfitImpact)) ==>
              r.table == WithColumn(t, RiskScore, ScoreColumn(Column(t, SupplyRisk)))
  {
    if !HasRequired(t.columns) then Outcome(t, Some(SchemaError(Required)))
    else
      assert SupplyRisk in Required && ProfitImpact in Required;
      var risk := AddScores(t, SupplyRisk, RiskScore);
      if risk.error.Some? then risk
      else
        assert Column(risk.table, ProfitImpact) == Column(t, ProfitImpact);
        var impact := AddScores(risk.table, ProfitImpact, ImpactScore);
        if impact.error.Some? then impact
        else
          assert Column(impact.table, RiskScore) == Column(risk.table, RiskScore);
          Outcome(WithCategories(impact.table), None)
  }

  /** The number of cells equal to `c`. */
  function CountOf(cells: seq<Cell>, c: Cell): nat
  {
    if cells == [] then 0
    else (if cells[0] == c then 1 else 0) + CountOf(cells[1..], c)
  }

  /** The multiset of a column counts each value as often as it occurs. */
  lemma {:induction false} MultisetCount(cells: seq<Cell>, c: Cell)
    ensures multiset(cells)[c] == CountOf(cells, c)
  {
    if cells != [] {
      MultisetCount(cells[1..], c);
      assert cells == [cells[0]] + cells[1..];
    }
  }

  /** `df['Category'].value_counts()`: how many rows hold each label. */
  function CategoryCounts(t: Table): (counts: multiset<Cell>)
    requires WellFormed(t) && CategoryColumn in t.columns
    ensures |counts| == |t.rows|
    ensures forall c :: c in counts <==> exists i :: 0 <= i < |t.rows| && t.rows[i][CategoryColumn] == c
    ensures forall c :: counts[c] == CountOf(Column(t, CategoryColumn), c)
  {
    var cells := Column(t, CategoryColumn);
    forall c
      ensures multiset(cells)[c] == CountOf(cells, c)
    {
      MultisetCount(cells, c);
    }
    multiset(cells)
  }

  /** The cell a label is written as. */
  predicate IsLabel(c: Cell)
  {
    || c == Text(Label(Strategic))
    || c == Text(Label(Leverage))
    || c == Text(Label(Bottleneck))
    || c == Text(Label(NonCritical))
  }

  /** In a column of labels, the four label counts add up to the column length. */
  lemma {:induction false} LabelCountsSum(cells: seq<Cell>)
    requires forall i :: 0 <= i < |cells| ==> IsLabel(cells[i])
    ensures var m := multiset(cells);
            m[Text(Label(Strategic))] + m[Text(Label(Leverage))]
              + m[Text(Label(Bottleneck))] + m[Text(Label(NonCritical))] == |cells|
    ensures forall c :: c in multiset(cells) ==> IsLabel(c)
  {
    if cells != [] {
      LabelCountsSum(cells[1..]);
      assert cells == [cells[0]] + cells[1..];
      assert multiset(cells) == multiset{cells[0]} + multiset(cells[1..]);
    }
  }

  /** A successful run keeps every row, in its order, and every column it
      does not write, and adds the two score columns. */
  lemma ScriptRows(t: Table)
    requires WellFormed(t) && Script(t).error.None?
    ensures SupplyRisk in t.columns && ProfitImpact in t.columns
    ensures var out := Script(t).table;
            && |out.rows| == |t.rows|
            && (forall m :: m in t.columns && m !in Derived ==> Column(out, m) == Column(t, m))
            && Column(out, RiskScore) == ScoreColumn(Column(t, SupplyRisk))
            && Column(out, ImpactScore) == ScoreColumn(Column(t, ProfitImpact))
  {
    assert SupplyRisk in Required && ProfitImpact in Required;
    var risk := AddScores(t, SupplyRisk, RiskScore);
    assert Column(risk.table, ProfitImpact) == Column(t, ProfitImpact);
    var impact := AddScores(risk.table, ProfitImpact, ImpactScore);
    assert Column(impact.table, RiskScore) == Column(risk.table, RiskScore);
  }

  /** In a successful run, the category of each row is `classify_supplier`
      of that row's two scores. */
  lemma ScriptCategories(t: Table)
    requires WellFormed(t) && Script(t).error.None?
    ensures SupplyRisk in t.columns && ProfitImpact in t.columns
    ensures var out := Script(t).table;
            var risk := ScoreColumn(Column(t, SupplyRisk));
            var impact := ScoreColumn(Column(t, ProfitImpact));
            forall i :: 0 <= i < |t.rows| ==>
              Column(out, CategoryColumn)[i] == Text(Label(ClassifySupplier(risk[i], impact[i])))
  {
    ScriptRows(t);
  }

  lemma LabelCell(c: Category)
    ensures IsLabel(Text(Label(c)))
  {
  }

  /** Every cell of the category column of a successful run is a label. */
  lemma CategoryColumnIsLabels(t: Table)
    requires WellFormed(t) && Script(t).error.None?
    ensures CategoryColumn in Script(t).table.columns
    ensures var cells := Column(Script(t).table, CategoryColumn);
            |cells| == |t.rows| && forall i :: 0 <= i < |cells| ==> IsLabel(cells[i])
  {
    ScriptRows(t);
    ScriptCategories(t);
    var cells := Column(Script(t).table, CategoryColumn);
    var risk := ScoreColumn(Column(t, SupplyRisk));
    var impact := ScoreColumn(Column(t, ProfitImpact));
    forall i | 0 <= i < |cells|
      ensures IsLabel(cells[i])
    {
      LabelCell(ClassifySupplier(risk[i], impact[i]));
    }
  }

  /** The category counts cover every row once: the four counts add up to
      the number of rows, and nothing but the four labels is counted. */
  lemma CountsCoverRows(t: Table)
    requires WellFormed(t) && Script(t).error.None?
    ensures var counts := CategoryCounts(Script(t).table);
            && counts[Text(Label(Strategic))] + counts[Text(Label(Leverage))]
                 + counts[Text(Label(Bottleneck))] + counts[Text(Label(NonCritical))] == |t.rows|
            && forall c :: c in counts ==> IsLabel(c)
  {
    CategoryColumnIsLabels(t);
    LabelCountsSum(Column(Script(t).table, CategoryColumn));
  }

  /** Running the script again on its own output changes nothing: the raw
      columns are untouched, so the scores and categories come out the same
      and are written over themselves. */
  lemma ScriptIdempotent(t: Table)
    requires WellFormed(t) && Script(t).error.None?
    ensures Script(Script(t).table) == Script(t)
  {
    ScriptRows(t);
    var out := Script(t).table;
    assert SupplyRisk in Required && ProfitImpact in Required && Supplier in Required;
    assert HasRequired(out.columns);
    assert Column(out, SupplyRisk) == Column(t, SupplyRisk);
    assert Column(out, ProfitImpact) == Column(t, ProfitImpact);
    var risk := AddScores(out, SupplyRisk, RiskScore);
    WithOwnColumn(out, RiskScore);
    assert risk.table == out;
    var impact := AddScores(risk.table, ProfitImpact, ImpactScore);
    WithOwnColumn(out, ImpactScore);
    assert impact.table == out;
    var cats := CategoryCells(Column(out, RiskScore), Column(out, ImpactScore));
    assert cats == Column(out, CategoryColumn);
    WithOwnColumn(out, CategoryColumn);
  }

  /** A column holding 10 twice and then 90 twice scores 0, 0, 100, 100. */
  lemma LowLowHighHigh()
    ensures ScoreColumn([Num(10.0), Num(10.0), Num(90.0), Num(90.0)])
            == [Num(0.0), Num(0.0), Num(100.0), Num(100.0)]
  {
    var r := [Num(10.0), Num(10.0), Num(90.0), Num(90.0)];
    assert !HasText(r);
    ScoreAtMinimum(r, 0, 2);
    ScoreAtMinimum(r, 1, 2);
    ScoreAtMaximum(r, 2, 0);
    ScoreAtMaximum(r, 3, 0);
  }

  /** A column alternating 10 and 90 scores 0, 100, 0, 100. */
  lemma LowHighLowHigh()
    ensures ScoreColumn([Num(10.0), Num(90.0), Num(10.0), Num(90.0)])
            == [Num(0.0), Num(100.0), Num(0.0), Num(100.0)]
  {
    var p := [Num(10.0), Num(90.0), Num(10.0), Num(90.0)];
    assert !HasText(p);
    ScoreAtMinimum(p, 0, 1);
    ScoreAtMaximum(p, 1, 0);
    ScoreAtMinimum(p, 2, 1);
    ScoreAtMaximum(p, 3, 0);
  }

  /** Four suppliers at the corners of the matrix: raw values 10 and 90 in
      both columns score 0 and 100 and land in the four quadrants. */
  lemma FourSuppliers()
    ensures CategoryCells(ScoreColumn([Num(10.0), Num(10.0), Num(90.0), Num(90.0)]),
                          ScoreColumn([Num(10.0), Num(90.0), Num(10.0), Num(90.0)]))
            == [Text("Non-Critical"), Text("Leverage"), Text("Bottleneck"), Text("Strategic")]
  {
    LowLowHighHigh();
    LowHighLowHigh();
  }

  /** One row of the uploaded table: a supplier name and its two raw values. */
  function SupplierRow(name: string, risk: real, impact: real): Row
  {
    map[Supplier := Text(name), SupplyRisk := Num(risk), ProfitImpact := Num(impact)]
  }

  /** The four corner suppliers as an uploaded table. */
  function FourSupplierTable(): (t: Table)
    ensures WellFormed(t) && HasRequired(t.columns)
  {
    Table(Required, [SupplierRow("A", 10.0, 10.0), SupplierRow("B", 10.0, 90.0),
                     SupplierRow("C", 90.0, 10.0), SupplierRow("D", 90.0, 90.0)])
  }

  /** The raw columns of the four corner suppliers. */
  lemma FourSupplierColumns()
    ensures SupplyRisk in FourSupplierTable().columns && ProfitImpact in FourSupplierTable().columns
    ensures Column(FourSupplierTable(), SupplyRisk) == [Num(10.0), Num(10.0), Num(90.0), Num(90.0)]
    ensures Column(FourSupplierTable(), ProfitImpact) == [Num(10.0), Num(90.0), Num(10.0), Num(90.0)]
    ensures !HasText(Column(FourSupplierTable(), SupplyRisk))
    ensures !HasText(Column(FourSupplierTable(), ProfitImpact))
  {
    var t := FourSupplierTable();
    assert Column(t, SupplyRisk) == [Num(10.0), Num(10.0), Num(90.0), Num(90.0)];
    assert Column(t, ProfitImpact) == [Num(10.0), Num(90.0), Num(10.0), Num(90.0)];
  }

  /** Any table whose raw columns are those of the four corner suppliers
      gets their four categories. */
  lemma ScriptOnCorners(t: Table)
    requires WellFormed(t) && HasRequired(t.columns)
    requires Column(t, SupplyRisk) == [Num(10.0), Num(10.0), Num(90.0), Num(90.0)]
    requires Column(t, ProfitImpact) == [Num(10.0), Num(90.0), Num(10.0), Num(90.0)]
    ensures Script(t).error.None?
    ensures CategoryColumn in Script(t).table.columns
    ensures Column(Script(t).table, CategoryColumn)
            == [Text("Non-Critical"), Text("Leverage"), Text("Bottleneck"), Text("Strategic")]
  {
    assert !HasText(Column(t, SupplyRisk)) && !HasText(Column(t, ProfitImpact));
    ScriptRows(t);
    FourSuppliers();
  }

  /** The whole script on the four corner suppliers: it succeeds and
      writes Non-Critical, Leverage, Bottleneck and Strategic. */
  lemma ScriptFourSuppliers()
    ensures Script(FourSupplierTable()).error.None?
    ensures CategoryColumn in Script(FourSupplierTable()).table.columns
    ensures Column(Script(FourSupplierTable()).table, CategoryColumn)
            == [Text("Non-Critical"), Text("Leverage"), Text("Bottleneck"), Text("Strategic")]
  {
    FourSupplierColumns();
    ScriptOnCorners(FourSupplierTable());
  }
}
