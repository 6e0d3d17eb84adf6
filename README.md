# Kraljic supplier classifier — a Dafny model

This is a model of the core of a small Streamlit app. The app takes a table of
suppliers, rescales each supplier's supply risk and profit impact onto a 0–100
scale, and places every supplier in one quadrant of the Kraljic portfolio
matrix: Strategic, Leverage, Bottleneck or Non-Critical.

The script body in `app.py` runs these steps in order:

1. It checks that the columns `Supplier`, `Supply_Risk` and `Profit_Impact` are all present.
   If one is missing, it shows an error that names all three.
2. It writes `Supply_Risk_Score` and `Profit_Impact_Score` into the data frame.
   Each is `(v - min) / (max - min) * 100`, with min and max taken over the whole column.
3. It applies `classify_supplier` row by row and writes the result into `Category`.
   The function tests `> 50` for "high", and a score of exactly 50 is not high.
4. It counts the rows per category for the bar chart.

## Files

- `frame.dfy` (module `Frame`) is the data frame.
  A `Table` is an ordered list of column names and an ordered list of rows.
  Each row maps every column name to a `Cell`: `Num(x)`, `NaN` (a missing value) or `Text(s)`.
  `WithColumn` models `df[name] = values`: an existing column is overwritten in place, and a new column is appended.
- `normalize.dfy` (module `Normalize`) is the min-max normalisation.
  `ExtentOf` gives the column minimum and maximum. Missing values are skipped, as the library's `min` and `max` do.
  `ScoreColumn` gives the score column.
- `classify.dfy` (module `Classify`) is `classify_supplier`.
  Its four branches are kept in the source's order. `Quadrant` is an independent lookup-table definition of the matrix.
- `pipeline.dfy` (module `Pipeline`) is the whole script as a function `Script` on tables.
  It also holds the lemmas about that function: the schema check, rows and columns kept, counts, idempotence, and a worked example.
- `app.dfy` (module `App`) holds the class `DataFrame`.
  This is the imperative script body: a class whose methods change the frame's columns and rows in place.
  `Run` is proved to leave the frame exactly as `Script` says.

NaN scores are modelled exactly, with no floating-point arithmetic.
A score is NaN in three cases, and is a number in [0, 100] otherwise:

- the row's cell is missing;
- the column holds no number at all;
- the column's max equals its min, so the division is 0 / 0.

Every comparison with NaN is false, so `classify_supplier` sends a row with a NaN score to Non-Critical.

Text in a score column makes the data-frame library raise a type error, which the script does not catch.
The model reports this as `DataTypeError`, with the frame as far as the script got.
So text in `Profit_Impact` leaves `Supply_Risk_Score` already written (`Pipeline.Script` states this).
When both raw columns hold text, the error names `Supply_Risk`, the column the script reaches first.

The script changes `df` in place, and `App.DataFrame.Run` does the same to its frame.

A row with a NaN score is Non-Critical, because both `> 50` and `<= 50` are false for NaN (`Classify.NaNIsNonCritical`).

## Model

| member | source | states |
|---|---|---|
| `App.DataFrame.constructor` | app.py:27 | The frame holds exactly the parsed table it is built from. |
| `Frame.AddColumn` | app.py:40-41 | After `df[name] = ...` the column set is the old set plus `name`. The existing columns keep their order, and a column already present is not moved. |
| `Frame.Column` | app.py:40-41 | `df[name]`: one cell per row, in row order, each the row's cell in that column. |
| `Frame.WithColumn` | app.py:40-41 | Assigning a column keeps the row count and order and puts the given values in that column. Every other column is unchanged. |
| `Normalize.ExtentOf` | app.py:40-41 | The column min and max: both occur in the column and bound every number in it. It is `NoValues` exactly when the column holds no number. |
| `Normalize.Scale` | app.py:40-41 | The score of one cell is a number exactly when the cell is a number and the column's max differs from its min; otherwise it is NaN. A value within the column's range scores in [0, 100], the min scores 0 and the max scores 100. |
| `Normalize.ScoreColumn` | app.py:40-41 | One score per row, in row order. Each score is NaN or lies in [0, 100]. |
| `Normalize.ScoreAtMinimum` | app.py:40-41 | A row holding the column minimum scores exactly 0, when the column holds some other number. |
| `Normalize.ScoreAtMaximum` | app.py:40-41 | A row holding the column maximum scores exactly 100, when the column holds some other number. |
| `Normalize.ScoreDefined` | app.py:40-41 | A score is a number exactly when the row's cell is a number and the column holds a different number. Otherwise it is NaN, which covers a missing cell and max == min. |
| `Normalize.ScoreMonotone` | app.py:40 | If row i's raw value is at most row j's, then both scores are numbers or both are NaN, and row i's score is at most row j's. |
| `Classify.ClassifySupplier` | app.py:44-52 | On numeric scores the branch chain equals the Kraljic lookup on the pair (risk > 50, impact > 50). |
| `Classify.CategoryExactly` | app.py:45-52 | Strategic iff both scores > 50. Leverage iff risk <= 50 and impact > 50. Bottleneck iff risk > 50 and impact <= 50. Non-Critical iff both <= 50. |
| `Classify.TieAtFifty` | app.py:47-52 | A score of exactly 50 is not high: (50, 80) is Leverage, (80, 50) is Bottleneck, (50, 50) is Non-Critical. |
| `Classify.NaNIsNonCritical` | app.py:44-52 | A NaN score fails both `> 50` and `<= 50`, so the row is Non-Critical whatever the other score is. |
| `Classify.LabelInjective` | app.py:46-52 | The four category labels are different strings. |
| `Pipeline.HasRequired` | app.py:36-37 | The check passes exactly when `Supplier`, `Supply_Risk` and `Profit_Impact` are all columns of the table. |
| `Pipeline.Join` | app.py:94 | `', '.join(...)`: every part occurs as a substring of the joined string. |
| `Pipeline.SchemaMessage` | app.py:93-94 | The error message names every required column. |
| `Pipeline.RequiredMessage` | app.py:94 | The message shown lists `Supplier, Supply_Risk, Profit_Impact` after the fixed text, in that order. |
| `Pipeline.AddScores` | app.py:40-41 | Text in the source column gives a type error and leaves the table unchanged. Otherwise the score column is written into the target column and every other column is kept. |
| `Pipeline.CategoryCells` | app.py:54 | `df.apply(classify_supplier, axis=1)`: one label per row, and row i's label is `classify_supplier` of row i's two scores. |
| `Pipeline.WithCategories` | app.py:54 | The new `Category` column is `classify_supplier` of the two score columns, row by row. Every other column is unchanged. |
| `Pipeline.Script` | app.py:36-54 | A missing required column gives a schema error and leaves the table unchanged, and every required column present means no schema error. The run succeeds exactly when neither raw column holds text. A successful run adds the three derived columns and classifies every row. Text in `Supply_Risk` gives a type error naming it, with the table unchanged. Text only in `Profit_Impact` gives a type error naming it, with `Supply_Risk_Score` already written as the normalised `Supply_Risk`. |
| `Pipeline.ScriptRows` | app.py:40-54 | A successful run keeps the row count and order and every column it does not write. The two score columns are the normalised raw columns. |
| `Pipeline.ScriptCategories` | app.py:54 | In a successful run, row i's category is `classify_supplier` of row i's two scores. |
| `Pipeline.CategoryCounts` | app.py:62 | `value_counts()`: each value's count is the number of rows holding it in `Category` (`CountOf`). The counts add up to the row count, and a value is counted exactly when some row holds it. |
| `Pipeline.MultisetCount` | app.py:62 | The multiset of a column holds each value as many times as it occurs in the column. |
| `Pipeline.CountsCoverRows` | app.py:62 | The four per-category counts sum to the number of rows, and nothing but the four labels is counted. |
| `Pipeline.ScriptIdempotent` | app.py:36-54 | Running the script again on its own output gives the same table: same scores, same categories, no new columns. |
| `Pipeline.LowLowHighHigh` | app.py:40 | The raw column 10, 10, 90, 90 scores 0, 0, 100, 100. |
| `Pipeline.LowHighLowHigh` | app.py:41 | The raw column 10, 90, 10, 90 scores 0, 100, 0, 100. |
| `Pipeline.FourSuppliers` | app.py:40-54 | Suppliers with raw values (10,10), (10,90), (90,10) and (90,90), whose scores the two lemmas above give, are Non-Critical, Leverage, Bottleneck and Strategic. |
| `Pipeline.ScriptOnCorners` | app.py:36-54 | The whole script, run on any table whose raw columns are those of the four corner suppliers, succeeds and writes Non-Critical, Leverage, Bottleneck and Strategic into `Category`. |
| `Pipeline.ScriptFourSuppliers` | app.py:36-54 | The same for the uploaded table A (10, 10), B (10, 90), C (90, 10), D (90, 90), running through the schema check, both score columns and the category column. |
| `App.ScanExtent` | app.py:40-41 | One pass over a column returns a type error exactly when the column holds text. Otherwise it returns the column's min and max as `ExtentOf` characterises them. |
| `App.DataFrame.ColumnExtent` | app.py:40-41 | `df[name].min()` and `.max()` on the frame: a type error exactly when the column holds text, otherwise the column's extent. |
| `App.DataFrame.WriteScores` | app.py:40-41 | Each row gets its own score in the target column, computed from its source cell. Nothing else in the row changes. |
| `App.DataFrame.AddScoreColumn` | app.py:40-41 | The frame afterwards, and the error returned, are exactly what `AddScores` gives for the frame before. |
| `App.DataFrame.AddCategoryColumn` | app.py:54 | The frame afterwards is exactly what `WithCategories` gives for the frame before. |
| `App.DataFrame.Run` | app.py:36-54 | The frame afterwards, and the error returned, are exactly what `Script` gives for the frame before. |

## Left out

- The Streamlit page is not modelled: page setup, title, sidebar, uploader, info and error display, and tables shown on the page (app.py:8-31, 57-58, 94). The model returns the error as a value, and `SchemaMessage` gives its text.
- Reading the CSV (app.py:27) is not modelled. The model starts from an already parsed table.
- The CSV export and download button (app.py:85-91) are not modelled, so neither is an export round trip.
- The scatter plot (app.py:64-82) and the rendering of the bar chart (app.py:62) are not modelled.
  The counts behind the bar chart are modelled as the multiset of the `Category` column. The library's ordering of the counts by frequency is not.
- Floating-point rounding is not modelled: scores are exact reals.
  Overflow to infinity for extreme values is not modelled either.
  Cells reading `inf` or `-inf`, which the CSV reader parses as floats, have no counterpart in `Cell`.
  NaN is modelled only where the formula produces it: a missing cell, a column with no number, and a column whose max equals its min.
- Integer and floating-point columns are both read as reals, so the 64-bit wrap-around of `max - min` on an integer column with extreme values is not modelled.
- A table with no rows: the model gives an empty table with the three derived columns added. That the library's row-wise `apply` on an empty frame yields an empty column, and so the same table, is not confirmed here.
- App.DataFrame.ColumnExtent: the source computes each column's min twice and its max once (app.py:40-41); the model computes each once, which gives the same values.
- Pipeline.AddScores: an uncaught type error ends the script. The model returns it as `DataTypeError` instead of modelling the exception and its traceback.
